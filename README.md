# A verified model of a Telegram test-result bot

The repository holds two versions of one Telegram bot:

- `bot.py` is the asynchronous version, on aiosqlite;
- `main.py` is the older synchronous version, on sqlite3.

Each version has a small stateful engine, and this project models it in Dafny:

- **The database.** It has three tables. `users` maps an id to its username, `tests_count` and `last_test`. `tests` is an append-only log of results. `config` maps keys to values and holds the response template under `main_text`.
- **The handlers.** A user takes a "test" (`/start`, which records a random result and renders the template), looks at personal and global statistics, and the administrator opens the admin panel.
- **The text-edit conversation.** This two-state machine (Idle and TEXT_EDIT) replaces the template. It accepts a new template only when the text contains `{percentage}`.

Modules:

- `Text` (text.dfy) holds the Python and SQLite behaviour the handlers rely on:
  - substring `in` and `str.format` for the single field `{percentage}`;
  - `str(int)`, `int()` on a digit string, `split('_')`, `split()[0]` and `capitalize()`;
  - the text SQLite stores for `CURRENT_TIMESTAMP`.
- `Store` (store.dfy) holds the `Database` class, whose methods update the three tables in place. Their specification functions are `Window` and `Aggregate` over the test log, and the users table is kept consistent with the log by an invariant. Both bot versions run the same statements, up to the declared type of `last_test`: it is `DATE` in main.py:41 and `DATETIME` in bot.py:53. Both types have NUMERIC affinity, and SQLite stores the same `CURRENT_TIMESTAMP` text in either column, so one class serves both. Apart from that column type, only the default template differs, and it is a parameter of `InitDb`.
- `Chat` (chat.dfy) holds the data exchanged with Telegram: decoded updates, replies with inline keyboards, and the conversation state.
- `AsyncBot` (async_bot.dfy) models the handlers and the conversation of `bot.py`.
- `SyncBot` (sync_bot.dfy) models the handlers and the conversation of `main.py`.

Conventions:

- **The clock.** SQLite's `'now'` is an integer count of seconds, `now`, given to every operation that reads or writes a time. `datetime('now', '-<days> days')` is `now - days * 86400`.
- **The result.** `random.randint(0, 100)` becomes a parameter `r` with `r <= 100`.
- **Failure.** A handler that would raise an exception where no reply gets sent returns `None`.

## Model

| member | source | states |
|---|---|---|
| Text.Contains | bot.py:250 | Python's substring test `pat in s` |
| Text.Render | bot.py:125 | `template.format(percentage=r)` for templates whose only field is `{percentage}` |
| Text.FirstWord | bot.py:191 | `s.split()[0]`, or None where `split()` gives no word |
| Text.ContainsIff | bot.py:250 | `'{percentage}' in text` holds exactly when the placeholder occurs at some position of the text |
| Text.ReplaceAbsent | bot.py:125 | a template without the placeholder is rendered unchanged |
| Text.ReplaceFirst | bot.py:125 | rendering keeps the text before the first placeholder, substitutes the result there, and goes on rendering the rest |
| Text.RenderSingle | bot.py:125 | a template with exactly one placeholder renders as the text before it, the result, and the text after it |
| Text.RenderTemplate | bot.py:125 | a template `prefix{percentage}suffix`, whose prefix has no brace and whose suffix has no second placeholder, passes the placeholder check and renders as prefix, decimal result, suffix |
| Text.NatToString | bot.py:190 | the decimal form of a count is non-empty, all ASCII digits, and starts with `0` only for zero |
| Text.ParseNatToString | bot.py:213 | reading back the decimal form of a number gives the number (`int(str(n)) == n`) |
| Text.TrimStart | bot.py:213 | removing leading whitespace leaves a suffix that does not start with whitespace, and every character removed is whitespace |
| Text.TrimEnd | bot.py:213 | removing trailing whitespace leaves a prefix that does not end with whitespace, and every character removed is whitespace |
| Text.PyInt | bot.py:213 | `int()` of a non-empty string of ASCII digits is its decimal value |
| Text.SignedDecimal | bot.py:213 | the value `int()` reads from the stripped text: there is a value exactly when the text is a non-empty digit string, or `+` or `-` followed by one; a digit string gets its decimal value, `+` keeps it and `-` negates it; anything else is None (ValueError) |
| Text.ParseDigits | bot.py:213 | the number a digit string denotes, leading zeros allowed; `ParseNatToString` proves it inverts `str(n)` |
| Text.IsSpace | bot.py:191 | the characters for which `str.isspace()` holds, which are the separators `split()` breaks words at |
| Text.PyIntDigits | bot.py:213 | `int()` also accepts the digits followed by one newline, with the same value |
| Text.Split | bot.py:213 | `split('_')` gives at least one part, and no part contains `_` |
| Text.SplitNone | bot.py:213 | a string without `_` splits into itself alone |
| Text.SplitAt | bot.py:213 | splitting at the first `_` gives the text before it, followed by the split of the rest |
| Text.FirstWordOf | bot.py:191 | `split()[0]` of a word followed by whitespace is that word |
| Text.TakeWordOf | bot.py:191 | the text before the first whitespace of a word followed by whitespace is that word |
| Text.Capitalize | main.py:211 | `capitalize()` keeps the length of the period name |
| Text.Pad | bot.py:94 | the zero-padded decimal field of SQLite's date and time text; it is non-empty and made of digits and a minus sign only |
| Text.CivilFromDays | bot.py:61 | the proleptic Gregorian year, month and day SQLite gives a day count since 1970-01-01 |
| Text.SqlClock | bot.py:94 | the `HH:MM:SS` part of SQLite's `CURRENT_TIMESTAMP` text for a second `t` |
| Text.SqlTimestamp | bot.py:94 | the text SQLite stores for `CURRENT_TIMESTAMP`: the date, one space, the time of day; `TimestampDate` proves its first word is the date |
| Text.SqlDate | bot.py:94 | the date part of a stored `CURRENT_TIMESTAMP` is non-empty and holds no whitespace |
| Text.TimestampDate | bot.py:191 | the first word of a stored `last_test` timestamp is its date `YYYY-MM-DD` |
| Store.SeedIdempotent | bot.py:71-74 | after initialisation `main_text` exists; initialising again with any default changes nothing; an existing template survives |
| Store.RecordKeepsConsistent | bot.py:88-99 | recording a test keeps `users` in agreement with `tests`: a row exactly for users with tests, holding their count and, with one clock reading for both statements, the time of their latest test |
| Store.WindowEmpty | bot.py:101-109 | the window selects no row exactly when every test is older than the window's start |
| Store.EmptyWindowStats | bot.py:101-109 | `get_stats` gives `(0, 0)` exactly when no test is at or after `now - days` |
| Store.WindowRows | bot.py:103-107 | the window holds each row of `tests` not older than its start exactly as many times as the table does, and no other row; so `COUNT(*)` is the number of such rows |
| Store.WindowMonotone | bot.py:106 | a window that starts earlier selects at least as many rows |
| Store.LongerWindowCountsMore | bot.py:101-109 | the count over more days is at least the count over fewer days |
| Store.SumInRange | bot.py:104 | with results in [0, 100], the sum of n results lies in [0, 100·n] |
| Store.WindowInRange | bot.py:104-106 | the window of a table with results in [0, 100] has results in [0, 100] |
| Store.AverageInRange | bot.py:104 | with results in [0, 100], the average `get_stats` takes lies in [0, 100] |
| Store.RecordedTestCounted | bot.py:88-109 | a test just recorded is counted, with its result, in every window read at the same time |
| Store.Seeded | bot.py:71-74 | `INSERT OR IGNORE` of `main_text`: the config with the default added only when the key is absent |
| Store.NextCount | bot.py:94 | `COALESCE((SELECT tests_count ...), 0) + 1`: the user's count plus one, or 1 for a user without a row |
| Store.Cutoff | bot.py:106-107 | the start of the window, `datetime('now', '-<days> days')`: never after `now`, and strictly before it for a positive number of days |
| Store.Window | bot.py:103-106 | the rows `WHERE timestamp >= cutoff`, in table order |
| Store.Aggregate | bot.py:101-109 | what `get_stats(days)` reads at time `now`: the sum and the count of the window starting `days` days before `now` |
| Store.Database.Open | bot.py:41-43 | a database opened on consistent tables is valid and holds them |
| Store.Database.InitDb | bot.py:45-75 | `main_text` is inserted with the default template only when absent; `users` and `tests` are unchanged (main.py:58-61 runs the same statement) |
| Store.Database.GetConfig | bot.py:77-81 | the value is returned exactly when the key is present, and None otherwise |
| Store.Database.UpdateConfig | bot.py:83-86 | an upsert of one key; every other key and the other tables are unchanged |
| Store.Database.AddTestResult | bot.py:88-99 | the user's row gets the new username, count + 1 (1 for a new user) and `last_test` = now; exactly one row is appended to `tests`; config is unchanged; consistency and results in [0, 100] are kept (main.py:78-91 runs the same statements) |
| Store.Database.GetStats | bot.py:101-109 | the count and the summed results of the rows not older than `days`, and `(0, 0)` for an empty window; on a valid database the sum lies in [0, 100·count] (main.py:93-101 runs the same query) |
| Store.Database.GetUserStats | bot.py:111-114 | the user's count and stored `last_test` text, or nothing exactly when the user has no row |
| AsyncBot.ButtonRoute | bot.py:163-176 | which of `start`, `show_user_stats` and `show_global_stats_menu` `button_handler` runs for a payload, or none |
| AsyncBot.LastTestShown | bot.py:191 | `last_test.split()[0] if last_test else 'еще не было'` |
| AsyncBot.StatsPattern | bot.py:282 | `re.match(r'^stats_\d+$', payload)` for ASCII digits, `$` admitting one trailing newline |
| AsyncBot.WindowOf | bot.py:213 | `int(payload.split('_')[1])`, or None where Python raises |
| AsyncBot.AdminPanel | bot.py:224-239 | the denial for any id other than ADMIN_ID, and the admin menu with `edit_text` and `admin_stats` for ADMIN_ID |
| AsyncBot.EditTextPattern | bot.py:287 | `re.match('^edit_text$', payload)`: exactly `edit_text`, `$` admitting one trailing newline |
| Chat.After | bot.py:286-292 | the conversation's state after a callback returns: TEXT_EDIT enters it, END leaves it, None keeps the state |
| AsyncBot.ConvRoute | bot.py:286-292 | the conversation's routing: the `^edit_text$` entry only when Idle; in TEXT_EDIT the text-message handler and the `/cancel` fallback |
| AsyncBot.ConvStep | bot.py:286-292 | one update of the conversation: the state after the callback's return value, the config after `update_text`, and the reply |
| AsyncBot.Dispatch | bot.py:286-292 | the conversation on one update: the step of the sender's (chat, user) session |
| AsyncBot.Run | bot.py:286-292 | the conversation over a sequence of updates, in arrival order |
| AsyncBot.DefaultTextRenders | bot.py:71-74 | the seeded template passes the placeholder check and renders as "🌈 Ваш результат: <r>%" |
| AsyncBot.Start | bot.py:118-138 | records the result for the user (as `AddTestResult`); when `main_text` exists, replies with it rendered for the result and the three buttons `retry`, `my_stats`, `global_stats` |
| AsyncBot.InlineQuery | bot.py:140-161 | one card whose message is "🔍 Результат для <mention>:\n" and the rendered template; the database is not modified, so no test is recorded |
| AsyncBot.ButtonRouteTokens | bot.py:163-176 | `button_handler` acts exactly on `retry`, `my_stats` and `global_stats`, and on every payload of the start keyboard |
| AsyncBot.ShowUserStats | bot.py:178-196 | a user without a row gets "❌ Вы еще не проходили тест!"; any other user gets their count and the date of their last test; a reply is always sent |
| AsyncBot.PatternSplit | bot.py:213 | a payload matching `^stats_\d+$` splits at `_` into `stats` and the text after it |
| AsyncBot.PatternWindow | bot.py:213 | for a payload matching `^stats_\d+$`, `int(data.split('_')[1])` is the number written after the underscore |
| AsyncBot.StatsPayloadRoundTrip | bot.py:208-222 | `stats_<d>` matches the pattern and parses back to `d`, for every window `d` |
| AsyncBot.StatsMenu | bot.py:198-206 | the reply of `show_global_stats_menu`: the prompt "🌍 Выберите период статистики:" and the buttons "7 дней", "30 дней", "365 дней" with payloads `stats_7`, `stats_30`, `stats_365` |
| AsyncBot.StatsMenuWindows | bot.py:198-206 | the menu has three buttons; they select 7, 30 and 365 days in that order, and each matches the handler's pattern |
| AsyncBot.GlobalStatsReply | bot.py:216-219 | the global statistics reply: the number of days, the window's average and its count |
| AsyncBot.HandleGlobalStats | bot.py:208-222 | the reply reports the average and count of the window whose length is the number in the payload |
| AsyncBot.AdminPanelAccess | bot.py:224-239 | a non-admin gets only the denial and no buttons; the menu's buttons appear exactly for ADMIN_ID |
| AsyncBot.UpdateTextOutcome | bot.py:247-261 | what `update_text` does to the config, replies and returns: a text without `{percentage}` is rejected, a failing write gets the error message, otherwise the text becomes `main_text`; END in every case (see `UpdateTextEnds`) |
| AsyncBot.UpdateTextHandler | bot.py:247-261 | stores the text as `main_text` only when it contains `{percentage}` and the write succeeds; replies with the matching message; returns END; other tables are unchanged |
| AsyncBot.UpdateTextEnds | bot.py:247-261 | every path of `update_text`, the error path included, returns END; config changes exactly for a valid text whose write succeeds |
| AsyncBot.ConvEnterIff | bot.py:286-292 | the conversation is in TEXT_EDIT after an update exactly when it was Idle and got an `^edit_text$` callback, or was in TEXT_EDIT and got an update it does not handle |
| AsyncBot.ConvTextOrCancelEnds | bot.py:286-292 | in TEXT_EDIT every text message and `/cancel` get a reply and end the conversation |
| AsyncBot.ConvTemplateChange | bot.py:286-292 | a conversation step changes the template exactly on a TEXT_EDIT text message containing `{percentage}` whose write succeeds, and sets it to that text |
| AsyncBot.DispatchIsolated | bot.py:286-292 | an update moves only the sender's (chat, user) conversation |
| AsyncBot.TemplateStaysValid | bot.py:247-261 | over any sequence of updates, with any failing writes, a template containing `{percentage}` keeps containing it |
| AsyncBot.EditWithoutAdminCheck | bot.py:241-256 | any user who sends the `edit_text` callback and then a text containing `{percentage}` replaces the template and ends up Idle |
| AsyncBot.AdminStatsUnhandled | bot.py:231-232 | the admin menu's `admin_stats` payload is acted on by no handler: `button_handler` (which has no pattern, so it receives the callback) takes no action for it, the `stats_` pattern rejects it, and it is not the conversation entry |
| SyncBot.CommandRoute | main.py:236-240 | which handler each registered command runs: `start`, the three statistics commands with their period, `admin_panel` |
| SyncBot.AdminPanel | main.py:158-171 | the denial for any id other than ADMIN_ID, and the admin menu with `edit_text` and `full_stats` for ADMIN_ID |
| SyncBot.ButtonHandler | main.py:173-185 | the action `button_handler` takes for a payload and the state it returns (TEXT_EDIT for `edit_text`, None otherwise) |
| SyncBot.Section | main.py:210-214 | the text one period adds to the full statistics: the capitalized title, the average and the count |
| SyncBot.Sections | main.py:208-214 | the sections the loop appends for a list of periods, one per period in order, titled with the capitalized name |
| SyncBot.ConvRoute | main.py:243-249 | the conversation's routing: `button_handler` for every callback when Idle; in TEXT_EDIT the text-message handler and the `/cancel` fallback |
| SyncBot.ConvStep | main.py:243-249 | one update of the conversation: the state after the callback's return value, the config after `update_text`, and the callback that ran |
| SyncBot.Dispatch | main.py:243-249 | the conversation on one update: the step of the sender's (chat, user) session |
| SyncBot.Run | main.py:243-249 | the conversation over a sequence of updates, in arrival order |
| SyncBot.DefaultTextRenders | main.py:58-61 | the seeded template passes the placeholder check and renders as "🌈 Твой показатель: <r>%" |
| SyncBot.Start | main.py:115-131 | records the result for the user; when `main_text` exists, replies with it rendered and the two buttons `retry` and `my_stats` |
| SyncBot.StatsReply | main.py:141-145 | the statistics reply for a period: its name, the window's average and its count |
| SyncBot.HandleStats | main.py:133-146 | the reply reports the average and count of the window the period maps to |
| SyncBot.StatsCommandWindows | main.py:134-155 | `stats_week`, `stats_month` and `stats_year` ask for 7, 30 and 365 days; every statistics command names a known period |
| SyncBot.AdminPanelAccess | main.py:158-171 | a non-admin gets only the denial; the menu's buttons appear exactly for ADMIN_ID |
| SyncBot.ButtonReturns | main.py:173-185 | `button_handler` returns TEXT_EDIT exactly for `edit_text` and None for every other payload; it acts exactly on `retry`, `my_stats`, `edit_text`, `full_stats` |
| SyncBot.ShowUserStats | main.py:187-198 | for a user with a row: count, ten-year (3650-day) average and date of the last test; for a user without one, no reply (the unpacking fails) |
| SyncBot.CapitalizedPeriods | main.py:211 | `capitalize()` of `week`, `month`, `year` is `Week`, `Month`, `Year` |
| SyncBot.SectionsStep | main.py:208-214 | each loop iteration appends the section of the next period |
| SyncBot.FullStatsSections | main.py:201-214 | the three periods give the sections Week (7 days), Month (30), Year (365), in that order |
| SyncBot.ShowFullStats | main.py:200-216 | the reply is the header followed by one section per entry of the period table, in table order, each with that window's average and count (by `FullStatsSections`: Week, Month, Year for 7, 30, 365 days) |
| SyncBot.UpdateTextOutcome | main.py:218-226 | what `update_text` does to the config, replies and returns: a text without `{percentage}` is rejected, any other becomes `main_text`; END in every case (see `UpdateTextEnds`) |
| SyncBot.UpdateTextHandler | main.py:218-226 | stores the text as `main_text` exactly when it contains `{percentage}`; replies with the matching message; returns END |
| SyncBot.UpdateTextEnds | main.py:218-226 | `update_text` always returns END; a text without `{percentage}` leaves config unchanged, any other becomes `main_text` |
| SyncBot.ConvEnterIff | main.py:243-249 | the conversation is in TEXT_EDIT after an update exactly when it was Idle and got the `edit_text` callback, or was in TEXT_EDIT and got an update it does not handle |
| SyncBot.ConvTextOrCancelEnds | main.py:243-249 | in TEXT_EDIT every text message and `/cancel` end the conversation, and button presses are not handled |
| SyncBot.ConvTemplateChange | main.py:243-249 | a conversation step changes the template exactly on a TEXT_EDIT text message containing `{percentage}`, and sets it to that text |
| SyncBot.DispatchIsolated | main.py:243-249 | an update moves only the sender's (chat, user) conversation |
| SyncBot.TemplateStaysValid | main.py:218-226 | over any sequence of updates, a template containing `{percentage}` keeps containing it |
| SyncBot.EditWithoutAdminCheck | main.py:181-183 | any user who presses `edit_text` and then sends a text containing `{percentage}` replaces the template and ends up Idle |

## Left out

- **SQLite/aiosqlite connections, cursors and commits.** The tables are in-memory values. The SQL is followed statement by statement.
- **SQLite's 64-bit integer limits.** The `tests_count` column, `test_id` and the tests table's size are unbounded here.
- **Telegram transport and python-telegram-bot.** Replies and inline results are returned values. `query.answer()`, `reply_markup` layout (one button per row) and polling are not modelled.
- **Handler precedence and groups in python-telegram-bot.** In `bot.py`, `button_handler` is registered without a pattern (bot.py:279) before the `stats_` handler and the conversation. Which of them PTB runs for a callback depends on the library, which is not part of this model. Each handler is modelled on its own, and the conversation's own routing is modelled by `ConvRoute`.
- **`random.randint` and `random.getrandbits`.** The result is a parameter `r <= 100`. The inline card's random id is not modelled.
- **The float average and `round(..., 1)`.** `Stats` keeps the sum and the count, and a reply shows the average as the fragment `Average(stats)`.
- Store.Database.GetStats: returns the sum and count, not the rounded float average.
- **Full `str.format` semantics.** This means `{{`, `}}`, other fields and the KeyError they raise. Rendering replaces every `{percentage}` and nothing else.
- **The clock.** It is an integer. The date text is in SQLite's format only for years 0000 to 9999.
- Store.Database.GetStats and AsyncBot.HandleGlobalStats: the window's start is `now - days * 86400` for every `days`. SQLite computes dates only within its Julian-day range (up to the year 9999). When the `-<days> days` modifier takes the start outside that range, `datetime` gives NULL, `timestamp >= NULL` selects no row, and the source replies `(0, 0)`. A payload such as `stats_3000000` reaches this case; the model instead counts every row.
- Store.Database.AddTestResult: one `now` stands for the clock readings of both statements. SQLite fixes `CURRENT_TIMESTAMP` only within one statement, so the stored `last_test` can be a second earlier than the appended row's timestamp. `Store.Consistent`'s conjunct equating `last_test` with the latest row's timestamp holds only under this convention.
- **Unicode digits and whitespace.** Python's `\d` and `int()` accept more than ASCII digits, but the model accepts only ASCII digits. `int()` with underscores is outside `PyInt` (it requires `'_' !in s`, which always holds after `split('_')`).
- **`user.mention_markdown()`.** It is a parameter of `InlineQuery`.
- AsyncBot.HandleGlobalStats: requires the payload to match `^stats_\d+$`, which its registration (bot.py:280-283) guarantees before it runs.
- **`start` reached through the `retry` button.**
  - In bot.py, `start` gets a callback update, whose `update.message` is None. The test is recorded first, and then the reply fails inside the `except`.
  - In main.py, `start` is called with the query itself, which has no `effective_user`, so it fails before recording anything.
  - These call paths are not modelled; `Start` models a `/start` command.
- **Logging, dotenv/env loading and the `except Exception` blocks.** These are left out, except the failing write in bot.py `update_text`, which is the `storeFault` parameter.
- SyncBot.UpdateTextHandler: main.py's database writes are taken to succeed. If the sqlite3 write at main.py:224 raised, `update_text` would send no reply and return nothing, and the conversation would stay in TEXT_EDIT; the model has no such path.
- **The environment lookup of ADMIN_ID.** The id is a parameter of `AdminPanel`; main.py's default id (main.py:25) and bot.py's required variable are not modelled.
- **The conversation.** It is modelled apart from the other handlers: `ConvStep` updates the config map directly, instead of going through `Database`.
- Text.Capitalize: its contract states only that the length is kept; the values for the three period names are in `SyncBot.CapitalizedPeriods`.

## Notes on the code

- Neither version checks ADMIN_ID on the edit-text entry; only `admin_panel` does (see `EditWithoutAdminCheck`).
- The inline query renders a result but records no test (see `InlineQuery`, which may not modify the database).
- main.py's `show_user_stats` unpacks the user's row without a check, so a user who has never taken the test gets no reply (see `SyncBot.ShowUserStats`).
- On an empty window `AVG(result)` is NULL and `COUNT(*)` is already 0. `get_stats` turns the NULL average into 0 with `avg or 0`, so it returns `(0, 0)` (see `Store.EmptyWindowStats`).
