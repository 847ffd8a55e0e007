# HR-chatbot core, modelled in Dafny

HR-chatbot is a Telegram bot. A user authorises with a company login (`name@waveaccess.global`)
and a password. The conversation state of that login dialogue lives in an SQLite-backed aiogram
FSM storage. An authorised user's questions go to the ValueAI language-model API, which is
reached with an access token. That token is refreshed or re-obtained on demand and persisted in
`.env`. `check_auth_expiry.py` defines a background sweep that resets every authorisation older
than seven days; `main.py` has its import and its `asyncio.create_task` commented out, so the
shipped bot does not start it. Whitelists of logins and their Telegram sessions are kept in a
JSON file (`AuthBot`) and in PostgreSQL (`Database`), and a pool of database functions records
sessions and question statistics.

The model has one module per source file:

- `FsmStorage` models `sqlite_storage.py`. The `fsm_states` table is a map from `(chat_id, user_id)`
  to a row whose state and data columns can each be NULL. `SQLiteStorage` is a class whose
  methods upsert that map.
- `JsonAuthStore` models `auth_bot.py`. It holds the parsed `users` mapping of the JSON file,
  or `None` while the file does not exist.
- `LoginDatabase` models `issue_statistics.py`. It holds `login_table` and `sessions`, with the
  foreign key and its `ON DELETE CASCADE` as an invariant.
- `SessionDatabase` models the free functions of `ww_the_database.py` over the tables
  `authorization`, `session` and `statistics`.
- `DotEnv` models `update_env_tokens`. `auth_valueai.py` and `auth_manager.py` carry the same
  logic on different paths: `AuthValuai` writes the `.env` of the project root, `AuthManager`
  a `.env` relative to the working directory. The module covers `readlines`, the filtering
  loop, the rendering of the new file and the environment update.
- `TokenManager` models `get_new_tokens`, `refresh_tokens` and `get_valid_token` of both
  `AuthValuai` and `AuthManager`. Each HTTP call is an input: the status and body the token
  endpoint answered.
- `ValueAiClient` models `valueai_client.py`: the headers, the retry policy of
  `get_chat_response`, and the POST → GET… → DELETE sequence of `send_message_to_llm`. The
  server's answer to each request is an input.
- `Handlers` models `handlers.py`: `/start`, the login and password steps, re-authorisation, and
  the cleaning of the model's answer.
- `AuthExpiry` models one pass of `check_auth_expiry.py`.
- `Text` holds the Python string operations used above: `strip`, `startswith`, `endswith`,
  and `split(sep, 1)[0]`.
- `Wrappers` and `Exceptions` hold `Option`/`Result` and the exceptions the code raises or
  catches.

Python exceptions become `Err` values, and the result says which exception it is. Mutable
objects (`SQLiteStorage`, `AuthBot`, `Database`, the connection pool, the process environment,
the bot's `user_storage`) are classes. Their methods state their whole new state. Pure decisions
(token fallback, retry, answer cleaning, the sweep's outcome) are functions with lemmas about them.

## Model

| member | source | states |
|---|---|---|
| FsmStorage.SerializeState | app/sqlite_storage.py:12-16 | `None` maps to NULL; a `State` maps to its `.state` name; anything else maps to its text |
| FsmStorage.WithState | app/sqlite_storage.py:51-65 | after `set_state` the row exists and reads back the new state with its old data (an `{}` data for a new row); no other row changes |
| FsmStorage.SQLiteStorage.constructor | app/sqlite_storage.py:38-49 | creating the table keeps the rows already stored |
| FsmStorage.SQLiteStorage.SetState | app/sqlite_storage.py:51-65 | the upsert: the table becomes `WithState` of the old table, with the serialised state |
| FsmStorage.SQLiteStorage.GetState | app/sqlite_storage.py:87-97 | the state column of the row; `None` when there is no row |
| FsmStorage.SQLiteStorage.SetData | app/sqlite_storage.py:99-114 | the upsert: the row gets the new data and keeps its state (a NULL state for a new row) |
| FsmStorage.SQLiteStorage.GetData | app/sqlite_storage.py:116-123 | the stored mapping; `{}` for a missing row or a NULL data column |
| FsmStorage.SQLiteStorage.UpdateData | app/sqlite_storage.py:125-129 | the merge of `dict.update`: old keys plus new keys, new values win, other old values kept; the merged mapping is stored and returned |
| FsmStorage.SQLiteStorage.Clear | app/handlers.py:106 | `state.clear()` leaves the row with a NULL state and `{}` data |
| FsmStorage.SetStateThenGet | app/sqlite_storage.py:51-97 | a state that was set reads back serialised, and the row's data is unchanged |
| FsmStorage.SetDataThenGet | app/sqlite_storage.py:99-123 | data that was set reads back unchanged, and the row's state is unchanged |
| FsmStorage.UpdateThenGet | app/sqlite_storage.py:116-129 | what `update_data` returns is what `get_data` reads next: the old data overridden by the new |
| FsmStorage.BotIdIgnored | app/sqlite_storage.py:51-65 | two keys that differ only in `bot_id` address the same row |
| JsonAuthStore.AuthBot.constructor | app/auth_bot.py:7-14 | opening creates an empty `users` mapping when the file is missing and keeps an existing one |
| JsonAuthStore.AuthBot.InitDb | app/auth_bot.py:16-20 | writes `{"users": {}}` only when the file does not exist |
| JsonAuthStore.AuthBot.RegisterUser | app/auth_bot.py:22-36 | a missing file raises FileNotFoundError; a known login answers False with nothing changed; a new login is added as a non-admin with no sessions and answers True |
| JsonAuthStore.AuthBot.AddSession | app/auth_bot.py:38-59 | answers True exactly when the login exists and the id is not yet listed, and then appends the id; otherwise nothing changes; no login ever lists an id twice |
| JsonAuthStore.AuthBot.IsAdmin | app/auth_bot.py:61-74 | True exactly when the login exists with the admin flag set |
| JsonAuthStore.AuthBot.UserExists | app/auth_bot.py:76-85 | True exactly when the file exists and holds the login |
| JsonAuthStore.AuthBot.RemoveUser | app/auth_bot.py:101-126 | a known login is deleted and its Telegram ids are returned; otherwise `[]` and nothing changes |
| JsonAuthStore.RegisterTwice | app/auth_bot.py:22-36 | registering the same new login twice answers True, then False |
| JsonAuthStore.AddSessionTwice | app/auth_bot.py:38-59 | adding the same id twice answers True, then False, and the id is listed once |
| LoginDatabase.BoundTo | app/issue_statistics.py:67-80 | the Telegram ids whose session names the login, and only those |
| LoginDatabase.CascadeDelete | app/issue_statistics.py:49-57 | the cascade removes exactly the sessions bound to the login and keeps the rest unchanged |
| LoginDatabase.Database.Open | app/issue_statistics.py:5-25 | the tables as stored; every session names an existing login |
| LoginDatabase.Database.AddLogin | app/issue_statistics.py:38-47 | a new login is inserted as a non-admin; an existing row is left alone; sessions unchanged |
| LoginDatabase.Database.RemoveLogin | app/issue_statistics.py:49-57 | the login is deleted and its sessions cascade; the foreign key still holds |
| LoginDatabase.Database.LoginExists | app/issue_statistics.py:59-65 | True exactly when a row has that login |
| LoginDatabase.Database.DeleteLoginWithTgIds | app/issue_statistics.py:67-80 | returns exactly the ids bound to the login before deleting it; afterwards no session names it |
| LoginDatabase.Database.SetAdminStatus | app/issue_statistics.py:83-92 | updates the flag of a known login; an unknown login creates no row |
| LoginDatabase.Database.IsUserAdmin | app/issue_statistics.py:94-107 | the login's flag exactly when a session binds that id to that login, otherwise `None` |
| LoginDatabase.Database.AddSession | app/issue_statistics.py:110-119 | an id that already has a session keeps it; a new id bound to an unknown login violates the foreign key; otherwise the session is added |
| LoginDatabase.Database.RemoveSession | app/issue_statistics.py:122-130 | deletes only that id's session; logins unchanged |
| LoginDatabase.SessionFirstWriterWins | app/issue_statistics.py:110-119 | binding one id to two logins keeps the first binding |
| LoginDatabase.DeleteReportsBoundIds | app/issue_statistics.py:67-107 | deleting reports every bound id; afterwards the login does not exist, and `is_user_admin` asked with each of those ids answers `None` |
| SessionDatabase.Pool.UserExists | app/ww_the_database.py:19-22 | True exactly when the `authorization` table has the login |
| SessionDatabase.Pool.IsAuthenticated | app/ww_the_database.py:25-31 | False for an unknown login; otherwise the verdict of `checkpw` on the stored hash |
| SessionDatabase.Pool.SaveSession | app/ww_the_database.py:34-40 | an existing device id keeps its session; a new one gets the login and the time; other tables unchanged |
| SessionDatabase.Pool.SaveQuestionStat | app/ww_the_database.py:43-50 | a new question starts at frequency 1; a known one goes up by exactly 1; other tables unchanged |
| SessionDatabase.AskTwice | app/ww_the_database.py:43-50 | asking twice adds 2 to that question's count and leaves every other count alone |
| SessionDatabase.SaveSessionTwice | app/ww_the_database.py:34-40 | a second save for the same device, under any login, keeps the first session |
| DotEnv.IsTokenLine | app/auth_valueai.py:93 | the filter's test: the stripped line starts with `VALUEAI_ACCESS_TOKEN=` or `VALUEAI_REFRESH_TOKEN=` |
| DotEnv.Retained | app/auth_valueai.py:89-95 | `new_lines`: the old lines that are not token lines, each stripped, in their order |
| DotEnv.ReadLines | app/auth_valueai.py:86 | `readlines()`: every line keeps its newline, the last may have none |
| DotEnv.ReadLinesConcat | app/auth_valueai.py:86 | the lines of `readlines()`, put back together, are the whole file |
| DotEnv.Rendered | app/auth_valueai.py:98-114 | the text written: kept lines joined by newlines, a newline when any were kept, then the access line and the refresh line, each ending in a newline |
| DotEnv.Rewritten | app/auth_valueai.py:77-114 | the new `.env`: `Rendered` of the retained lines of the old file, none when the file is missing |
| DotEnv.EnvUpdate | app/auth_valueai.py:57-117 | missing token keys raise ValueError; otherwise the environment gains exactly the two token values, every other variable kept, and the file is rewritten |
| DotEnv.FilterLines | app/auth_valueai.py:89-95 | the loop computes `Retained`: the old lines that are not token lines, stripped, in order |
| DotEnv.RenderFile | app/auth_valueai.py:98-114 | the content written: the kept lines joined by newlines, one newline after them when any were kept, then the two token lines |
| DotEnv.Process.UpdateEnvTokens | app/auth_valueai.py:57-117 | missing keys raise ValueError and change nothing; otherwise the file and the environment become `EnvUpdate`, and the environment holds both tokens |
| DotEnv.RetainedAppend | app/auth_valueai.py:91-95 | the filter works line by line: it distributes over concatenation |
| DotEnv.RetainedStripped | app/auth_valueai.py:93-95 | every kept line is stripped and is not a token line |
| DotEnv.RetainedMembers | app/auth_valueai.py:93-95 | a line is kept, stripped, exactly when it is not a token line |
| DotEnv.ReadUnlines | app/auth_valueai.py:86 | `readlines` of lines that were each written with a newline gives those lines back, each with its newline |
| DotEnv.JoinUnlines | app/auth_valueai.py:105-109 | joining with newlines and adding a final one is the same as ending every line with a newline |
| DotEnv.RenderedUnlines | app/auth_valueai.py:101-114 | the new file is the kept lines and the two token lines, each ending in a newline |
| DotEnv.TokenLinesAreDropped | app/auth_valueai.py:93 | the two lines the rewrite writes are token lines |
| DotEnv.RetainedTerminated | app/auth_valueai.py:93-95 | filtering lines that were kept before, read back with newlines, keeps them unchanged |
| DotEnv.ReadLinesShape | app/auth_valueai.py:86 | every line from `readlines` is non-empty and has a newline at most at its end |
| DotEnv.RetainedNoNewline | app/auth_valueai.py:86-95 | no kept line contains a newline |
| DotEnv.ReadBackRewritten | app/auth_valueai.py:86-114 | reading the rewritten file gives the kept lines and then the two token lines |
| DotEnv.TokenLinesRetainNothing | app/auth_valueai.py:93-95 | the two token lines are dropped by the next rewrite |
| DotEnv.RetainedOfRewritten | app/auth_valueai.py:86-114 | the next rewrite keeps exactly the lines the previous one kept |
| DotEnv.RewriteTwice | app/auth_valueai.py:57-117 | rewriting twice is the same as rewriting once with the second tokens: the update is idempotent up to the last tokens |
| TokenManager.Catches | app/auth_valueai.py:199 | the exceptions that make `get_valid_token` fall back: ClientError or KeyError in `AuthValuai`, any exception in `AuthManager` (app/auth_manager.py:132) |
| TokenManager.HasStoredTokens | app/auth_valueai.py:187-191 | both environment tokens are present and non-empty |
| TokenManager.Persisted | app/auth_valueai.py:143-149 | the 200 branch: succeeds exactly on a JSON object holding both tokens, persisted through `update_env_tokens`; a wrong Content-Type is a ClientError, malformed JSON or an object without both tokens a ValueError, a `null` document a TypeError; a failure changes nothing |
| TokenManager.GetNewTokens | app/auth_valueai.py:120-151 | succeeds exactly on a 200 whose JSON object has both tokens, returns it and persists it through `update_env_tokens`; 400, 401 and any other status raise with that status; a transport failure is a ClientError; a failure changes nothing |
| TokenManager.RefreshTokens | app/auth_valueai.py:154-180 | like `get_new_tokens` for 400, 401 and 200, with the same decoding failures; exactly the other statuses fall through to `None` without persisting |
| TokenManager.RefreshAttempt | app/auth_valueai.py:197-198 | `refresh_tokens(...)["authorization_token"]`: the refreshed token, the refresh's exception, or a TypeError from subscripting `None`; the environment is the refresh's |
| TokenManager.GetValidToken | app/auth_valueai.py:183-208 | an answered token is the `authorization_token` of a token document whose `update_env_tokens` gives exactly the new environment and `.env`; a failure changes nothing; `AuthManager` fails only when `get_new_tokens` fails |
| TokenManager.MissingTokensSkipRefresh | app/auth_valueai.py:187-193 | without both stored tokens the refresh response plays no part: the answer is `get_new_tokens`' |
| TokenManager.RefreshSuccessWins | app/auth_valueai.py:196-198 | a successful refresh answers its token, whatever `get_new_tokens` would do |
| TokenManager.ManagerFallsBack | app/auth_manager.py:115-135 | in `AuthManager` any failure of the refresh path gives exactly the answer of `get_new_tokens` |
| TokenManager.ManagerNeverFailsIfNewSucceeds | app/auth_manager.py:115-135 | `AuthManager` answers a token whenever `get_new_tokens` would succeed |
| TokenManager.ValuaiRejectedRefreshPropagates | app/auth_valueai.py:196-199 | in `AuthValuai` a refresh rejected with 400 or 401 raises out of `get_valid_token`, even when new tokens could be had |
| TokenManager.ValuaiUnexpectedStatusPropagates | app/auth_valueai.py:154-199 | in `AuthValuai` an unexpected refresh status gives `None`, and subscripting it raises an uncaught TypeError |
| TokenManager.ValuaiTransportErrorFallsBack | app/auth_valueai.py:199-208 | in `AuthValuai` a transport failure of the refresh, or a body whose Content-Type is not JSON, falls back to `get_new_tokens` |
| TokenManager.ValuaiUndecodableRefreshPropagates | app/auth_valueai.py:174-199 | in `AuthValuai` a 200 refresh with malformed JSON, a `null` document or an object without both tokens raises ValueError or TypeError out of `get_valid_token` |
| TokenManager.VariantsAgreeUnlessRefreshRaises | app/auth_manager.py:115-135 | the two variants answer the same unless the refresh raised something `AuthValuai` does not catch |
| Exceptions.Retryable | app/valueai_client.py:71 | the poll is retried on ClientError and APIError only |
| Exceptions.ReadJson | app/valueai_client.py:81 | `response.json()`: the document (an empty body reads as `null`), a ClientError for a body whose Content-Type is not JSON, a ValueError for malformed JSON |
| ValueAiClient.GetHeaders | app/valueai_client.py:60-65 | a single `Authorization` header whose value is exactly `Bearer ` followed by the token |
| ValueAiClient.Field | app/valueai_client.py:85 | `v[k]`: the value when `v` is an object holding `k`; KeyError in an object without it; TypeError otherwise |
| ValueAiClient.First | app/valueai_client.py:85 | `v[0]`: the first item of a non-empty list or the first character of a non-empty string; IndexError when empty, KeyError on an object, TypeError otherwise |
| ValueAiClient.AnswerOf | app/valueai_client.py:84-87 | `data['data'][0]['text']` exactly when the document has that shape; a missing `data` or `text` key, an empty list or string, or an object as `data` gives APIError; a document that is not an object, a scalar `data`, a non-empty string `data` or a non-object `data[0]` gives TypeError |
| ValueAiClient.PollOnce | app/valueai_client.py:73-87 | one attempt succeeds exactly on a 200 with a readable answer; any other status is an APIError, a transport failure or a wrong Content-Type a ClientError; a decoded 200 document gives exactly `AnswerOf`'s answer; the failures not retried are a ValueError from malformed JSON and a TypeError from a 200 document of another shape |
| ValueAiClient.RetryFrom | app/valueai_client.py:68-72 | the policy makes at least one attempt and at most eight |
| ValueAiClient.RetryFromOutcome | app/valueai_client.py:68-87 | every attempt before the last was a retried failure; the last one's outcome is returned unless it was the eighth retried failure |
| ValueAiClient.RetryOutcome | app/valueai_client.py:68-87 | from the first attempt: 1 to 8 attempts; the result is RetryError exactly when the last attempt also failed retryably |
| ValueAiClient.FirstSettledAttempt | app/valueai_client.py:68-87 | `k` retried failures and then a settled attempt: exactly `k + 1` attempts and that attempt's outcome |
| ValueAiClient.AllTransientGivesUp | app/valueai_client.py:68-72 | eight retried failures: exactly eight attempts, then RetryError |
| ValueAiClient.GetChatResponse | app/valueai_client.py:68-87 | the loop of attempts produces the outcome and attempt count of the policy |
| ValueAiClient.ChatIdOf | app/valueai_client.py:121-128 | the chat id exactly when the POST answered 200 with an object holding `id`; another status is an APIError, a transport failure or a wrong Content-Type a ClientError, a 200 document that is not an object a TypeError, an object without `id` a KeyError, malformed JSON a ValueError |
| ValueAiClient.Gets | app/valueai_client.py:131 | `n` identical GETs of the chat |
| ValueAiClient.SendMessageToLlm | app/valueai_client.py:90-144 | a token failure sends nothing; every request carries the token's header; a failed creation stops after the POST; otherwise POST, one GET per attempt, then DELETE only after an answer; a DELETE transport error propagates; any DELETE status still returns the answer |
| ValueAiClient.AnsweredDespiteFailedDelete | app/valueai_client.py:131-140 | after `k` retried failures the answer of the next GET is returned, and the chat is deleted once, after the last GET, whatever the DELETE's status |
| Handlers.CleanReply | app/handlers.py:196 | `split('**********', 1)[0].strip()` |
| Handlers.Reply | app/handlers.py:191-213 | the reply is never empty; it is the fixed apology, or the answer cut at the first `**********` and stripped, with no separator left; a non-empty cleaned answer is always sent |
| Handlers.CleanReplySplits | app/handlers.py:196 | the raw answer is the text before the first separator followed by nothing or by the separator and the rest; the reply is that text stripped |
| Handlers.CleanAnswerPassesThrough | app/handlers.py:196-200 | an answer that is already stripped, non-empty and free of the separator is sent unchanged |
| Handlers.Bot.constructor | app/storage.py:4-9 | the bot starts with the given FSM storage and `user_storage` |
| Handlers.Bot.CmdStart | app/handlers.py:56-62 | answers the welcome text and puts the conversation in the login state, keeping its data |
| Handlers.Bot.Reauthorisation | app/handlers.py:161-172 | puts the conversation in the login state, confirms the button press and asks for the login |
| Handlers.Bot.ProcessLogin | app/handlers.py:67-84 | a message without text raises AttributeError; a login outside the domain is rejected with nothing changed; otherwise the login is stored in the data and the state becomes password |
| Handlers.Bot.ProcessPassword | app/handlers.py:89-109 | a missing or empty password is rejected with nothing changed; otherwise the authorisation time is recorded for the user and the conversation is cleared |
| Handlers.LoginDialogue | app/handlers.py:56-109 | `/start`, a valid login and a password: the three replies in order, the conversation cleared, the authorisation time recorded |
| Handlers.WrongDomainStaysInLogin | app/handlers.py:67-73 | a login outside the domain keeps the conversation in the login state with its data |
| Text.IsSpace | app/handlers.py:196 | the characters `str.isspace()` accepts, that `strip()` removes |
| Text.Strip | app/handlers.py:196 | `str.strip()`: whitespace removed at both ends |
| Text.EndsWith | app/handlers.py:70 | `str.endswith`: the string ends exactly in the suffix, case included |
| Text.BeforeFirst | app/handlers.py:196 | `split(sep, 1)[0]`: the text before the first occurrence of the separator |
| Text.TrimLeftSuffix | app/handlers.py:196 | stripping the left end leaves a suffix that starts with a non-space |
| Text.TrimRightPrefix | app/handlers.py:196 | stripping the right end leaves a prefix that ends with a non-space |
| Text.StripIsStripped | app/handlers.py:196 | `strip()` leaves no whitespace at either end |
| Text.StrippedIsFixpoint | app/handlers.py:196 | a stripped string is its own `strip()` |
| Text.StripIdempotent | app/handlers.py:196 | stripping twice is stripping once |
| Text.BeforeFirstSpec | app/handlers.py:196 | `split(sep, 1)[0]` is a prefix with no earlier occurrence of the separator; it ends at the first occurrence, and it is the whole string exactly when the separator does not occur |
| Text.BeforeFirstHasNoDelimiter | app/handlers.py:196 | `split(sep, 1)[0]` does not contain the separator |
| Text.StripKeepsAbsence | app/handlers.py:196 | stripping cannot create an occurrence of a string |
| AuthExpiry.Expired | app/check_auth_expiry.py:38 | `last_auth` is set and lies more than seven days before `now` |
| AuthExpiry.ExpiryIsStrict | app/check_auth_expiry.py:38 | exactly seven days after the authorisation it still holds, one microsecond later it has expired; no `last_auth` never expires |
| AuthExpiry.ResetUsers | app/check_auth_expiry.py:33-58 | the users reset by a pass: exactly those with a `last_auth` more than seven days old whose notice was delivered |
| AuthExpiry.ResetIn | app/check_auth_expiry.py:58 | the reset users have `last_auth` = `None`; all others are unchanged |
| AuthExpiry.LoginReset | app/check_auth_expiry.py:48-55 | the reset users' private chats are in the login state with their data; every other row is unchanged |
| AuthExpiry.LoginResetStep | app/check_auth_expiry.py:48-55 | one more `set_state` is one more reset user |
| AuthExpiry.Sweep | app/check_auth_expiry.py:27-63 | a pass over the copy of `user_storage`, in its iteration order, leaves exactly `ResetIn` and `LoginReset` of the users it resets; a failed send skips that user |
| AuthExpiry.ResetUserSparedLater | app/check_auth_expiry.py:38-58 | a user reset by one pass is not reset again by a later pass and stays reset |
| AuthExpiry.SecondPassRetriesFailedSends | app/check_auth_expiry.py:38-63 | a second pass at the same time resets only expired users whose first notice failed |
| AuthExpiry.SweepIdempotentWhenDelivered | app/check_auth_expiry.py:27-63 | when every notice is delivered, a second pass at the same time resets nobody: `user_storage` and the FSM table are left as they are |
| AuthExpiry.AuthorisationLastsAWeek | app/check_auth_expiry.py:38 | a password given at most exactly seven days before a pass keeps the authorisation and the cleared state |
| AuthExpiry.ExpiredUserLogsInAgain | app/check_auth_expiry.py:38-58 | more than seven days later, a delivered notice resets the authorisation and puts the chat in the login state |

## Left out

- File, JSON, SQL and HTTP transport. Every file holds its parsed contents, every table is a map, and every HTTP exchange is an input (status and decoded body, or a transport failure). Opening, encoding and connection handling are not modelled.
- `bcrypt.checkpw` is an uninterpreted predicate, passed as a parameter to `IsAuthenticated`.
- Time: `datetime.now()`, `NOW()` and the sweep's two-hour sleep are parameters or left out. `timedelta(days=7)` is counted in microseconds.
- The wait between retries (`wait_exponential`) is left out; only the number and outcome of the attempts is modelled.
- Concurrency and `await`: the sweep interleaving with the handlers, and two dialogues at once, are not modelled. A pass is a single step over the copy of `user_storage`.
- Logging and debug prints, the `save_statistics` method in `issue_statistics.py`, `debug_state` and `close` in `sqlite_storage.py`, and `connect_db`/`connect` (pool creation) are left out: they do not take part in the decisions modelled.
- The menu, help, about and back handlers, the keyboards and aiogram's routing of an update to a handler are left out. The model calls the handler that the routing would choose.
- `storage.py`'s `UserData` is reduced to its one field `last_auth`: `user_storage` maps a Telegram id to that value, `None` when unset or reset.
- Sending a message: a failed `message.answer` in a handler is left out. In the sweep, whether `bot.send_message` succeeds is the input `sendOk`, and a failure skips the user, as the `except` does.
- The model's request payload and its float parameters such as `temperature`.
- Which `.env` is written: `AuthValuai` passes the project-root path, `AuthManager` the working directory's `.env` (app/auth_manager.py:38). The model has one file, whichever the caller names.
- Newline translation and character encoding of `.env`: contents are strings after Python's universal-newline reading.
- DotEnv.RewriteTwice: requires that the first tokens contain no newline. A token with a newline would split its line on the next read.
- Unicode: `strip()` is modelled with the characters `str.isspace()` accepts; there is no normalisation or case folding, and the code uses none.
- LoginDatabase.Database.DeleteLoginWithTgIds: returns the set of ids rather than the list in the database's row order.
- JSON numbers are integers only. A decoded token response is a JSON object of strings or `null`; a list, string or number as the whole token document, and a non-string token value, are not modelled.
- FsmStorage.SetDataThenGet: the data column holds a flat mapping from strings to JSON scalars, so the round trip holds by construction; the changes `json.dumps`/`json.loads` make (integer keys turned into strings, tuples into lists) and nested values are not modelled.
- JsonAuthStore.AuthBot.RegisterUser: the FileNotFoundError branch, and the missing-file answers of the other methods, are reached only when the file disappears between calls; no modelled operation deletes it, so the model reaches that state only through the `db` field itself.
- ValueAiClient.SendMessageToLlm: the chat id is kept as the JSON value from the POST. The formatting of that value into the URL is not modelled.
- Handlers.Reply: the contract does not prove that the fixed apology is itself stripped and free of the separator. It states only that the reply is either that apology or the cleaned answer.
- AuthExpiry.Sweep: the iteration order of `user_storage` is an input (`order`, holding exactly its keys).
- `FSMContext.clear()` comes from aiogram, not from this repository. It is modelled as `set_state(None)` followed by `set_data({})`, so on this storage the row stays, with a NULL state and `{}` data, rather than being deleted.
- One-time codes, admin workflows and a banned state are not modelled: the handlers define only the `login` and `password` states (app/handlers.py:50-52).

## Findings

| source | as written | input that shows it | evidently intended | confidence | as-written member | corrected member |
|---|---|---|---|---|---|---|
| app/auth_valueai.py:199 | `get_valid_token` falls back to `get_new_tokens` only on `aiohttp.ClientError` or `KeyError`. `refresh_tokens` raises a plain `Exception` for 400 and 401, and returns `None` for any other status, which makes the subscript raise TypeError. | Both tokens stored; the refresh endpoint answers 401 (an expired refresh token), or 200 with malformed JSON, while the login endpoint would answer 200 | any failure of the refresh should fall back to new tokens, as the comment at line 200 says and as `auth_manager.py:132` does | not executed | TokenManager.ValuaiRejectedRefreshPropagates | TokenManager.ManagerFallsBack |
