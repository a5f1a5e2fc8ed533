# Session login and chat ownership, modelled in Dafny

This project models the core of a small FastAPI chat backend: how a browser
logs in through an OAuth 2.0 authorization-code flow against Azure AD, how
the server-side session is then checked on each request, how the login
upserts a user row, and how the chat endpoints check that a chat session
belongs to the caller before they read or write it.

The repository has two login implementations, and they do not agree:

- `app/auth/route.py` with the guard `verify_token` (`app/auth/utils.py`).
  It stores a display name, the access token and an expiry instant in the
  session.
- `app/auth/auth.py`, built on an OAuth client library. It stores a user
  dictionary carrying the directory id, and "logged in" only means that
  the key `user` is present.

Both are modelled over the same session type, `map<string, Value>`. The
module `Schemes` proves that a session written by one scheme breaks the
code written for the other.

Everything is pure. A handler is a function from the session, the tables
and an integer clock to an `Outcome`, either `Returned` or `Raised`, plus
the new session and tables. Tables are sequences of records in insertion
order. Nullable columns are `Option`s. NOT NULL and UNIQUE are checked when
a row is written, and a rejected write raises `IntegrityError` and changes
nothing.

| module | file | models |
|---|---|---|
| `Values` | values.dfy | JSON values, Python truthiness, `dict.get` |
| `Http` | http.dfy | responses, exceptions, status codes, redirect URLs |
| `Query` | query.dfy | `.first()`, filter, `ORDER BY … DESC`, `OFFSET`/`LIMIT` |
| `AuthUtils` | auth_utils.dfy | `verify_token` |
| `AuthRoute` | auth_route.dfy | `login` and `auth_callback` of app/auth/route.py |
| `AuthModels` | auth_models.dfy | the `User` row, its constructor, the table constraints |
| `AuthCrud` | auth_crud.dfy | the user directory operations |
| `AuthScheme` | auth_scheme.dfy | `is_authenticated`, `get_current_user`, `login`, `auth_callback` of app/auth/auth.py |
| `ChatModels` | chat_models.dfy | `Message` and `ChatSession` rows, the schema invariant |
| `ChatCrud` | chat_crud.dfy | the chat store operations |
| `ChatRoutes` | chat_routes.dfy | the three chat endpoints and their gate |
| `Schemes` | schemes.dfy | how the two session layouts interact |

Behaviour the model keeps exactly as the code has it:

- **The `state` value is fixed.** The authorization request always carries
  `state=12345`. This is the cross-site request forgery weakness described
  in section 10.12 of RFC 6749. The model does not replace it with a random
  value.
- **Tokens always last one hour.** The callback looks up `expires_in` in
  the form it sent, which never contains that key. So the session always
  expires at `now + 3600`, whatever lifetime the provider reports
  (`AuthRoute.ExpiryIgnoresProvider`).
- **Expiry clears the whole session.** Once `now >= token_expires_at`, the
  guard empties every key, not just the three it checks.
- **Callback errors become 500.** The `route.py` callback raises 400 for an
  `error` parameter or a missing code. Its generic `except` clause catches
  that and raises 500 instead. The `auth.py` callback turns every failure
  into 400.
- **Users are found by email only.** A user whose `azure_id` matches is
  never merged, and the insert then fails on the UNIQUE constraint
  (`AuthCrud.AzureMatchIsNotMerged`).
- **`last_updated` never moves.** No code writes it after the insert; in
  particular, adding a message does not bump it. In the model both columns
  take the insert's instant, so every store write preserves
  `ChatModels.NeverBumped` (`last_updated` equal to `created_at`).
- **One row per exchange.** A message row holds both the user's text and
  the reply. There are no per-message roles.
- **No page counts.** List queries return one page. There is no total
  count and no page count.
- **Newest first.** Every list query sorts by its timestamp, descending.

## Model

| member | source | states |
|---|---|---|
| AuthUtils.VerifyToken | app/auth/utils.py:6-21 | A request passes (None) exactly when all three keys are present and now < token_expires_at. A missing key gives a 303 to /auth/login and leaves the session as it was. An expired session (now == expiry included) is emptied of every key, then redirected. A non-numeric expiry raises TypeError. |
| AuthUtils.GuardIsMonotone | app/auth/utils.py:17 | If a session passes at t, it passes at every earlier instant. If it is expired at t, it is redirected and emptied at every later instant. |
| AuthUtils.RedirectIsSticky | app/auth/utils.py:13-19 | After a redirect, a second call at any instant redirects again. After an expiry, the second call fails on the missing keys. |
| AuthRoute.AuthorizeQuery | app/auth/route.py:43-50 | The authorization request of section 4.1.1 of RFC 6749 has exactly client_id, response_type=code, redirect_uri, response_mode=query, the fixed scope and state=12345, in that order. |
| AuthRoute.Login | app/auth/route.py:31-56 | The response is a 307 to "/" exactly when the guard passes. Otherwise it is a 307 to the authorize endpoint with that query. The session is whatever the guard left. A guard exception becomes a 500. |
| AuthRoute.StateNeverChanges | app/auth/route.py:49 | Any two logins that go to the provider give the same redirect, and its state is "12345", whatever the session and the clock. |
| AuthRoute.TokenForm | app/auth/route.py:71-77 | The token request of section 4.1.3 of RFC 6749 has exactly client_id, client_secret, code, redirect_uri and grant_type=authorization_code. |
| AuthRoute.ExpiryIgnoresProvider | app/auth/route.py:90-91 | For every configuration and code, the expiry instant is now + 3600. |
| AuthRoute.AuthCallback | app/auth/route.py:58-105 | A truthy error is rejected before the code is looked at. A missing code is rejected next. Both become 500. With a code, an unreachable token or profile endpoint raises "Error communicating with Microsoft: " as a 500. When both endpoints answer, the login succeeds with a 303 to "/", and "user" holds the profile's displayName, or "User" when it has none. Any failure leaves the session untouched. On success the session gains exactly the three keys the guard requires, the expiry is now + 3600, the access token comes from the token reply, and all other keys are kept. |
| AuthRoute.CallbackOpensGuardedSession | app/auth/route.py:91-101 | After a successful callback at now, the guard passes at t exactly when t < now + 3600. From then on it empties the session. A later login goes home exactly in that window. |
| AuthModels.NewUser | app/auth/models.py:21-25 | The constructor stores email, name and azure_id as given and stamps last_login with the construction instant. |
| AuthModels.UpdateLastLogin | app/auth/models.py:27-28 | Only last_login changes. id, email, name and azure_id stay as they were. |
| AuthModels.Violation | app/auth/models.py:11-13 | A row is admitted exactly when its email is present and no other row has that email, and when it has an azure_id, no other row has that azure_id. |
| AuthModels.InsertKeepsWellFormed | app/auth/models.py:10-14 | Appending an admitted row under the next id keeps a well-formed table well formed: ids distinct, emails present and distinct, present azure_ids distinct. |
| AuthModels.ReplaceKeepsWellFormed | app/auth/models.py:10-14 | Rewriting one row, keeping its id, in a way the other rows admit keeps a well-formed table well formed. |
| AuthModels.StoredRowIsAdmitted | app/auth/models.py:11-13 | In a well-formed table, every stored row is one the constraints admit beside all the other rows. |
| AuthCrud.GetUserByEmail | app/auth/crud.py:5-6 | Returns a user with exactly that email, or None when no user has it. |
| AuthCrud.GetUserByAzureId | app/auth/crud.py:8-9 | Returns a user with exactly that azure_id, or None when no user has it. |
| AuthCrud.CreateUser | app/auth/crud.py:11-20 | Succeeds exactly when the constraints admit the new row. It then appends one row under the next id, holding the arguments verbatim, even when they are empty. A missing email is an IntegrityError. A table that was well formed stays well formed. |
| AuthCrud.UpdateUserLogin | app/auth/crud.py:22-28 | An unknown id returns None and changes nothing. A known id always returns that user with last_login = now, and only that user's last_login changes. A well-formed table stays well formed. |
| AuthCrud.CreateOrUpdateUser | app/auth/crud.py:30-45 | For an existing email, the row count and the user's id and email are unchanged. Name and azure_id are replaced only by truthy values, and last_login becomes now. In a well-formed table, the write fails only when a new azure_id belongs to another user. For a new email, it behaves exactly like create_user. |
| AuthCrud.RefreshFailsOnlyOnAzureId | app/auth/crud.py:36-39 | In a well-formed table, refreshing an existing user can violate only azure_id uniqueness, and only when a truthy new azure_id is given. |
| AuthCrud.UpsertLeavesOneUserPerEmail | app/auth/crud.py:30-45 | After a successful upsert of a well-formed table, the table is still well formed. Exactly one user has the email, and it is the one returned. |
| AuthCrud.AzureMatchIsNotMerged | app/auth/crud.py:30-32 | Take a new email whose azure_id another user already holds. The upsert does not pick that user. It fails with an IntegrityError on users.azure_id, or on users.email when the email is missing. |
| AuthScheme.GetCurrentUser | app/auth/auth.py:164-169 | Returns the stored "user" value exactly when is_authenticated holds ("user" is a key), and None otherwise. |
| AuthScheme.Login | app/auth/auth.py:98-109 | A logged-in session gets a 307 to "/" and is left unchanged, without the provider being involved. Any other session gets the provider redirect. |
| AuthScheme.UserClaims | app/auth/auth.py:120-137 | A truthy userinfo dictionary is used as it is, and a truthy userinfo that is not a dictionary raises AttributeError. Otherwise, a truthy id_token yields exactly the four claims email, name, preferred_username and sub, each "" when missing, and id_token_claims that are not a dictionary raise AttributeError. With neither, the result is a 400 "No user info available". |
| AuthScheme.FallbackNeverUsesPreferredUsername | app/auth/auth.py:130-142 | On the id_token path, the email given to the upsert is the email claim, or "", and never preferred_username. |
| AuthScheme.UpsertRequest | app/auth/auth.py:114-145 | A failure in the provider library and a falsy token are errors. A truthy token that is not a dictionary fails with AttributeError, and a failure to find user info is passed on as it is. Otherwise the upsert is reached exactly when the email (falling back to preferred_username, then ""), the name and the sub of the chosen record are strings or null. It then receives exactly those values. |
| AuthScheme.AuthCallback | app/auth/auth.py:112-159 | Every failure, including the handler's own HTTPExceptions, surfaces as a 400 carrying the original exception, and leaves the session and the directory unchanged. Once the upsert is reached, the login succeeds exactly when the upsert succeeds. On success the directory is the upsert's result, and "user" holds email, name and id of the upserted row plus access_token and token_type (default "Bearer"). The response is a 307 to "/", and the directory stays well formed. |
| AuthScheme.CallbackStoresDirectoryUser | app/auth/auth.py:140-154 | After a successful callback, the stored id and email are those of a user in the directory who has the requested email. |
| AuthScheme.CallbackThenCurrentUser | app/auth/auth.py:98-169 | After a successful callback, get_current_user returns exactly the user dictionary built from the upserted row. A later login goes home with the session unchanged, whatever the provider would answer. |
| AuthScheme.UserinfoLogsInNewUser | app/auth/auth.py:112-159 | A token whose userinfo carries an email and an azure_id that no user holds yet logs in: the response is a 307 to "/", and exactly one new row is appended under the next id. |
| ChatModels.MessageViolation | app/chat/models.py:11-14 | A message row is admitted exactly when session_id, user_id, content and response are all present. |
| ChatCrud.InsertMessage | app/chat/crud.py:7-14 | An admitted row is appended under the next id with the insertion instant as timestamp. Nothing else changes. A row with a missing NOT NULL column is rejected. |
| ChatCrud.CreateMessage | app/chat/crud.py:6-15 | As written, every call is rejected on messages.session_id, because the function never receives or sets it. |
| ChatCrud.CreateMessageInSession | app/chat/crud.py:6-15 | With the session id supplied, the user id, text and reply are stored verbatim in that session with timestamp now. The row gets the next message id, only the message counter advances, and nothing else changes. The chat sessions, and so their last_updated, are unchanged. |
| ChatCrud.CreateMessageInSessionKeepsInvariants | app/chat/models.py:11-14 | A message stored in an existing session by an existing user keeps the schema invariant (non-null fields, references to existing rows) and moves no last_updated. |
| ChatCrud.GetUserMessages | app/chat/crud.py:17-23 | The result is exactly the page OFFSET skip LIMIT limit (default 0 and 100) of that user's messages ordered newest first. So every row is one of that user's messages, newest first. The length is min(limit, max(0, matching − skip)) (no limit when limit is negative). With no offset and room for all, every matching message is returned. |
| ChatCrud.GetSessionMessages | app/chat/crud.py:56-62 | The same as get_user_messages, for the messages of one chat session, with default limit 50. |
| ChatCrud.GetUserChatSessions | app/chat/crud.py:30-37 | The same, for the user's chat sessions ordered by last_updated, most recent first, with default limit 100. |
| ChatCrud.GetMessage | app/chat/crud.py:25-28 | Returns the message with that id, or None when there is none. |
| ChatCrud.GetChatSession | app/chat/crud.py:50-54 | Returns the chat session with that id, or None when there is none. |
| ChatCrud.CreateChatSession | app/chat/crud.py:39-48 | Appends exactly one session with the given owner and title (default "New Chat"), with created_at = last_updated = now, and leaves every other row alone. A missing owner violates NOT NULL. |
| ChatCrud.CreateChatSessionKeepsInvariants | app/chat/models.py:26-29 | A session created for an existing user keeps the schema invariant and keeps last_updated equal to created_at everywhere. |
| ChatCrud.CreatedSessionIsListed | app/chat/crud.py:30-48 | A newly created session appears in its owner's listing when there is no offset and room for all of them. Its title is the given one, and last_updated equals created_at. |
| ChatRoutes.Gate | app/chat/routes.py:17-27 | The checks run in order: 401 when logged out, then 404 for a missing chat session, then the user's id is read (a missing id raises), then 403 exactly when the owner differs. The gate passes exactly when the owner equals the caller's id. |
| ChatRoutes.SendMessage | app/chat/routes.py:10-43 | As written, no request succeeds and the store never changes. The gate's error comes first. Past the gate, the call with an undeclared session_id keyword raises TypeError (500). |
| ChatRoutes.SendMessageIntended | app/chat/routes.py:10-43 | Past the gate, with a numeric user id, the message and "Echo: " + message are stored in that session under the caller's id, and the reply repeats them. Sessions are unchanged. Any failure leaves the store untouched. |
| ChatRoutes.SendMessageIntendedKeepsInvariants | app/chat/models.py:11-12 | The intended endpoint keeps the schema invariant and moves no last_updated. |
| ChatRoutes.CreateSession | app/chat/routes.py:44-66 | Logged out gives a 401 with the store unchanged. A logged-in "user" without a readable id raises that KeyError or TypeError (500) with the store unchanged. Success appends exactly one session owned by the caller's id, with the given title (default "New Chat"), created now, and returns its id, title and creation time. |
| ChatRoutes.GetSessionMessages | app/chat/routes.py:68-94 | The gate's error is returned as it is. Past the gate, the reply echoes the requested session id and carries the store's page of that session's messages (default skip 0, limit 50), all from that session. |
| ChatRoutes.OtherUsersAreForbidden | app/chat/routes.py:26-27 | A logged-in caller who does not own an existing chat session gets 403 from reading and from both versions of writing, and the store is left alone. |
| Schemes.RouteLoginBreaksChatEndpoints | app/auth/route.py:94-98 | After a route.py login whose display name is not a dictionary, the chat endpoints see a logged-in user. Reading its id raises, so the gated endpoints on an existing session and session creation all answer 500. |
| Schemes.LibraryLoginFailsTokenGuard | app/auth/auth.py:148-154 | After an auth.py login into a session without an expiry, verify_token redirects to the login page at every instant. |
| Query.FirstIndex | app/chat/crud.py:25-28 | The index found is the first row that satisfies the filter, or -1 exactly when no row does. |
| Query.Filter | app/chat/crud.py:18-19 | The result holds exactly the stored rows that satisfy the filter, each as often as it is stored. |
| Query.SortDesc | app/chat/crud.py:20 | The result is a permutation of its input, ordered by key, largest first. |
| Query.Page | app/chat/crud.py:21-22 | OFFSET skip LIMIT limit keeps min(limit, max(0, n − skip)) rows, starting at position max(0, skip). A negative limit means no limit. |
| Query.Listing | app/chat/crud.py:18-23 | Filter, then sort, then page. Results match the filter and are ordered, the length is the page length of the matching count, and the rows are the ordered matches from the offset on. |

## Left out

- Network calls to the identity provider are not modelled.
  - route.py's token POST and profile GET are the two functions of
    `AuthRoute.Provider`, each returning a decoded JSON object or a
    failure.
  - The OAuth library's `authorize_redirect` and
    `authorize_access_token` are the parameters `toProvider` and `Grant`.
  - That includes the state the library keeps in the session.
- Cookie signing and encryption by the session middleware, and CORS: the
  session is a plain map.
- The SQLAlchemy engine, `get_db`, commit and refresh, and table creation.
  Each operation is one atomic write that either commits or changes
  nothing. Ids come from a counter, which is the same as SQLite's
  max(rowid)+1 when no rows are deleted.
- Foreign keys: SQLite does not enforce them unless asked, so the inserts
  do not check them. The reference part of `ChatModels.WellFormed` is
  proved under the callers' preconditions instead.
- When timestamps are equal, SQL leaves the order open. `Query.SortDesc`
  keeps equal keys in stored order, so the listings return one of the
  orders SQL allows, not every one.
- The training acknowledgement route, a document-store update behind
  `verify_token`, and main.py's `read_root`, which only wires
  `is_authenticated` to `get_user_chat_sessions`.
- Floating-point `time.time()` and `datetime.utcnow()`: the clock is an
  integer parameter.
- The clock is read once per insert. The program reads it once per
  defaulted column (app/chat/models.py:28-29), so a real `last_updated`
  trails `created_at` by a few microseconds. The model makes them equal.
- Percent-encoding by `urlencode`: the redirect target keeps its query as
  name/value pairs.
- JSON booleans and arrays, provider replies that are not JSON objects,
  and unset environment variables (configuration values are strings).
- FastAPI's request validation (422 for a non-integer path or query
  parameter) and the serialisation of response bodies.
- The exact text of `str(exception)`: a re-raised exception keeps its
  cause as a structured value.
- AuthScheme.UpsertRequest: a claim that is a number or an object is
  treated as a rejected write. SQLite would store a number in a text
  column.
- ChatRoutes.CreateSession: a stored user id that is a string is treated
  as a rejected write. SQLite would store it in the integer column.

## Findings

| source | as written | input that shows it | evidently intended | confidence | as-written member | corrected member |
|---|---|---|---|---|---|---|
| app/chat/routes.py:30-36 | `send_message` passes `session_id=` to `create_message`, which declares no such parameter | a logged-in owner posting "hi" to their own existing chat session gets a TypeError (500) | store the message in that session and return its echo | high; not executed | ChatRoutes.SendMessage | ChatRoutes.SendMessageIntended |
| app/chat/crud.py:6-15 | `create_message` never sets `session_id`, a NOT NULL column (app/chat/models.py:11) | `create_message(db, user_id=1, content="hi", response="Echo: hi")` is rejected by the NOT NULL constraint | take the session id and store it in the row | high; not executed | ChatCrud.CreateMessage | ChatCrud.CreateMessageInSession |
