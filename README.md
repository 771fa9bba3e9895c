# Bee Swarm Simulator notifier bot — verified model of its core

This project models in Dafny the parts of `main.py` that hold logic. `main.py` is a Discord bot with an aiohttp admin panel. Each of the four globals the modelled commands update (`party_state`, `sessions`, `update_mode`, `latency_history`) becomes one class whose fields those commands update. Each command is tied to a pure step function, and the properties are proved about those step functions.

- **Party** (`party.dfy`) is the Robo Party tracker: the global `party_state` record and the `/start` and `/done` slash commands. The `party_history` table is an append-only sequence of completer ids. Run a sequence of commands and it keeps an invariant: a next party time is set exactly while tracking is active, and nothing sets `sleep_until`. Tracking never switches off, and the history only grows, by one row per accepted `/done`.
- **WebPanel** (`webpanel.dfy`) is the in-memory `sessions` map with `create_session`, `check_auth`, the credential gate of `login_submit` and `logout`. It also has the decision order of `health_check` (`/dashboard`, `/health`) and of `update_page`.
- **Maintenance** (`maintenance.dfy`) is the global `update_mode` flag and the owner-only `!updating` command.
- **Latency** (`latency.dfy`) is `latency_history`, a `deque(maxlen=60)`, and the appends of `track_latency`. After any number of appends the buffer equals the last 60 of all readings ever taken.
- **Uptime** (`uptime.dfy`) is `get_uptime`: how a duration splits into days, hours, minutes and seconds, and its three text shapes. A parser for the text is the partner definition, and parsing the text back recovers the components printed.
- **Wrappers** (`wrappers.dfy`) is the `Option` type.

Clock readings are integer UTC seconds passed in as `now`. The random session token is passed in by the caller. Latency readings are passed in as integers.

This revision of `main.py` keeps one global tracker (main.py:1207-1212). It has no `/sleep` command and no notification dispatcher. `/start` does not touch `sleep_until` (main.py:1246-1248).

## Model

| member | source | states |
|---|---|---|
| Party.StartArms | main.py:1243-1255 | `/start` makes tracking active, sets the next party to `now + 10800`, clears `reminder_sent`, and leaves `sleep_until` and the history unchanged |
| Party.StartRearms | main.py:1246-1248 | a repeated `/start` only re-arms the timer from the later `now` |
| Party.DoneWhenInactive | main.py:1261-1266 | `/done` while inactive answers "not active" and changes neither the record nor the history |
| Party.DoneWhenActive | main.py:1268-1280 | `/done` while active appends exactly the caller's id to the history, re-arms the timer from `now`, clears `reminder_sent`, and keeps `active` and `sleep_until` |
| Party.DoneReplyMeansLogged | main.py:1258-1280 | `/done` answers complete exactly when tracking was active, and only then does the history grow by one row |
| Party.StepConsistent | main.py:1207-1280 | each command keeps the invariant "next party time is set exactly when active, `sleep_until` is unset" |
| Party.InitialConsistent | main.py:1207-1212 | the initial record satisfies the invariant |
| Party.RunConsistent | main.py:1207-1280 | every state reachable by commands from a consistent one is consistent |
| Party.ActiveStaysActive | main.py:1243-1280 | no command deactivates tracking, and from an active tracker every `/done` of a run is accepted: the accepted count equals the number of `/done` commands |
| Party.HistoryAppendOnly | main.py:1268-1272 | a run of commands only extends the history, by one row per accepted `/done` |
| Party.NoCompletionsBeforeStart | main.py:1207-1212 | from the initial record, `/done` commands alone change nothing and log nothing |
| Party.PartyTracker.constructor | main.py:1207-1212 | the record starts inactive, with no times, reminder not sent and empty history |
| Party.PartyTracker.StartTracking | main.py:1243-1255 | the fields after `/start` are those of the `/start` step |
| Party.PartyTracker.PartyDone | main.py:1258-1280 | the fields and the reply after `/done` are those of the `/done` step |
| WebPanel.CheckAuth | main.py:47-50 | a request without a `session_id` cookie is never authenticated |
| WebPanel.CreateThenAuthenticated | main.py:53-60 | after creating a session under a token, that token authenticates, its session is marked authenticated, and every other token's session is unchanged |
| WebPanel.LogoutRevokes | main.py:389-397 | after logout the cookie's id no longer authenticates, other sessions survive, and an id that was not stored leaves the map unchanged |
| WebPanel.LoginGate | main.py:372-386 | a session is created under the token (the map becomes the old one plus that authenticated session, every other session kept) and the browser sent to `/dashboard` with a 24-hour cookie exactly when both fields equal the configured credentials; otherwise the map is unchanged and the redirect is `/login?error=invalid` |
| WebPanel.MissingFieldRefused | main.py:375-381 | with the non-empty credentials that startup requires (main.py:1341-1344), a form missing either field is refused |
| WebPanel.DashboardOrder | main.py:400-407 | unauthenticated callers always get the login redirect; authenticated callers get the 503 update page exactly when `update_mode` is set, and the status page with 200 otherwise |
| WebPanel.LoginLogoutRoundTrip | main.py:372-407 | a successful login's cookie reaches a dashboard page, and after logout the same cookie is redirected to login |
| WebPanel.SessionStore.constructor | main.py:39 | the session map starts empty |
| WebPanel.SessionStore.CreateSession | main.py:53-60 | returns the given token and stores an authenticated session under it |
| WebPanel.SessionStore.Login | main.py:372-386 | the map and the response after a login submission are those of the login step |
| WebPanel.SessionStore.Logout | main.py:389-397 | removes the cookie's session if present and redirects to `/login`, deleting the cookie |
| WebPanel.SessionStore.Dashboard | main.py:400-407 | the response is the dashboard decision on the current map and flag |
| Maintenance.NonOwnerIgnored | main.py:1306-1310 | `!updating` from anyone but `OWNER_ID` leaves the flag unchanged and sends no reply |
| Maintenance.OwnerFlips | main.py:1312-1322 | `!updating` from the owner negates the flag and the reply reports the new value |
| Maintenance.ToggleTwiceRestores | main.py:1306-1313 | two `!updating` commands from the same author restore the flag |
| Maintenance.ToggledByParity | main.py:1306-1313 | after any sequence of `!updating` commands the flag has flipped once per owner command |
| Maintenance.OwnerToggleShowsMaintenance | main.py:1312-1313 | once the owner has enabled maintenance, authenticated dashboard requests get the 503 page and unauthenticated ones the login redirect |
| Maintenance.MaintenanceFlag.constructor | main.py:37 | the flag starts off |
| Maintenance.MaintenanceFlag.ToggleUpdateMode | main.py:1306-1329 | the flag and the reply after `!updating` are those of the toggle step |
| Latency.Appended | main.py:38 | an append keeps at most 60 entries and ends with the new value; below capacity it only adds, and at capacity the oldest is dropped and the rest keep their order |
| Latency.AppendedIsWindow | main.py:38 | one append leaves the last 60 of the previous contents followed by the new value |
| Latency.WindowOfWindow | main.py:38 | the 60-entry window forgets only entries older than itself |
| Latency.AppendedAllIsWindow | main.py:1194-1199 | after any number of appends the deque holds the last 60 readings of the whole history, in order |
| Latency.GraphOfReadings | main.py:415 | starting from the empty deque, the status page graph shows the last 60 readings taken, or only the current reading before the first one |
| Latency.LatencyHistory.constructor | main.py:38 | the deque starts empty |
| Latency.LatencyHistory.Append | main.py:1199 | the contents after `append` are those of the append step |
| Latency.LatencyHistory.Track | main.py:1194-1199 | after the loop has run over a finite list of readings, the deque is the last 60 of the old contents plus those readings |
| Uptime.Decompose | main.py:124-129 | hours < 24, minutes < 60 and seconds < 60, with `days*86400 + hours*3600 + minutes*60 + seconds` equal to the elapsed time, and days non-negative exactly when the elapsed time is |
| Uptime.DecomposeUnique | main.py:124-129 | no other split within those bounds exists |
| Uptime.Decimal | main.py:131-136 | the printed number is a non-empty run of digits with no leading zero |
| Uptime.DecimalReadsBack | main.py:131-136 | reading a printed number back gives the number |
| Uptime.RenderReadsBack | main.py:131-136 | the space-separated component text is unambiguous: parsing it gives back exactly the components |
| Uptime.UptimeShape | main.py:131-136 | the text reads back as `d h m s` when days > 0, as `h m s` when there are no days but some hours, and as `m s` otherwise |
| Uptime.TotalOfParts | main.py:131-136 | the printed components add up to the elapsed seconds, less the days when these are not printed |
| Uptime.UptimeReadsBack | main.py:124-136 | a non-negative elapsed time is recovered exactly from the text; a negative one prints the time of day it wraps to |

## Left out

- HTML, CSS and JavaScript: the page bodies of `login_page`, `health_check` and `update_page`, and `get_bee_favicon`. These are presentation strings, and each page is reduced to its kind and status code.
- aiohttp plumbing: `start_web_server` and `create_html_response`. Cookie handling and redirects are kept only as the decision values they produce. The redirect of `/` to `/dashboard` is left out as well.
- Discord calls: `bot.tree.sync`, `change_presence`, `send_message`, `ctx.send`, `ctx.message.delete` and `member.send`. These are foreign calls; only which reply is chosen is modelled.
- `send_party_reminder` and `get_ping_users`: these are database and DM I/O, and nothing in `main.py` schedules them. `REMINDER_ADVANCE` is never used.
- Database access: `init_db`, the table definitions, `add_user`'s upsert, and the `party_history` insert. History is an abstract sequence. Because the insert is not modelled, a failing insert, which would abort `/done` before the timer resets, is not modelled either.
- `hash_password`: it is unused, and SHA-256 is a library call.
- `secrets.token_hex(32)`: randomness. The caller supplies the token. A token that collides with a stored one overwrites it, exactly as the dict assignment would.
- Latency values: `round(bot.latency * 1000, 2)` is floating point, so readings are integers. The 30-second `asyncio.sleep` of `track_latency` is concurrency, so the loop runs over a given finite list of readings.
- `datetime.utcnow()`: the clock. Times are passed in as integer seconds. `get_uptime` works on the whole seconds of the timedelta, and microseconds are never shown.
- Startup: the configuration checks and `exit` calls in `__main__`, and `on_ready`. Only their consequence is used: both admin credentials are non-empty (`Configured`).
- Per-(community, user) trackers, `/sleep` and a notification dispatcher: these do not exist in this revision of `main.py`.
