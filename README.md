# AstroLauncher supervisor, modelled in Dafny

This project models the core of AstroLauncher, a launcher for an Astroneer dedicated server.
It has two parts.

The first is the supervisor, `AstroDedicatedServer`. It owns the server process and
polls the server's console for the player list. It reports who joined or left. It also
clears the server's registrations in the public server directory and kills the process
tree on request.

The second is the web front end's decision rules: the password bootstrap and login, the
page redirects, the status API's log tail, the busy gate of the admin endpoints, and the
URL the web server announces.

Files:

- `wrappers.dfy`: `Option`, which also stands for Python's `None`, and `Outcome`, a call's
  result or an escaped exception.
- `text.dfy`: `str.split`, `str.join` and `str(int)`, with their round trips.
- `presence.dfy`: the pure part of one `server_loop` iteration. It holds the in-game name
  filter and the length-based join/leave rule over set differences.
- `supervisor.dfy`: the `AstroDedicatedServer` class. Every call the supervisor makes to
  the console, the directory service or the operating system is appended to an `effects`
  list, including each `process.poll()`. The answers to those calls arrive as method
  parameters. The process status is a field that `Start` sets to running and a loop step
  sets to exited when `poll()` returns an exit code.
- `web.dfy`: the rules of `cogs/AstroWebServer.py`. SHA-256 is a parameter `sha256` that
  returns 64-character digests.

Notes on the source as written:

- The supervisor has no lifecycle-state field (Stopped, Running, Killed and so on).
  `kill_server` deregisters, kills children and kills its own process. It does not clear
  the roster. The model does the same.
- `server_loop` reports one element of the set difference, and only when the roster's
  length changes. A swap of one player for another in the same poll is never recorded
  (`Presence.SwapIsNotReported`). When a name repeats, the difference can be empty. The
  source then raises `IndexError` (`Presence.RepeatedNameLeavesNothingToReport`), and the
  model returns the outcome `IndexError`.
- Nothing in cogs/AstroDedicatedServer.py or cogs/AstroWebServer.py resets `busy`, so the model claims nothing about it being reset.

## Model

| member | source | states |
|---|---|---|
| `Supervisor.AstroDedicatedServer.constructor` | cogs/AstroDedicatedServer.py:44-57 | A new supervisor has an empty roster and no snapshot (`{}`). It is not registered and has no `LobbyID`. Its settings are the loaded ones, its address key matches them, and no process is started. `serverGUID` follows the corrected rule. |
| `Supervisor.ServerGuidFor` | cogs/AstroDedicatedServer.py:54 | The GUID is the configured `ServerGuid`, or `"REGISTER"` when that is the empty string. It is never `""`. |
| `Supervisor.ServerGuidAsWrittenIgnoresConfig` | cogs/AstroDedicatedServer.py:47-54 | As written, the rule reads the default settings before `refresh_settings` runs, so `serverGUID` is `None` for every configuration. It differs from the configured GUID `"abc"`. |
| `Supervisor.AstroDedicatedServer.RefreshSettings` | cogs/AstroDedicatedServer.py:59-62 | After a refresh, the settings are the loaded ones and `ipPortCombo` is their `PublicIP:Port`. |
| `Supervisor.AddressKey` | cogs/AstroDedicatedServer.py:62 | The key is the address, one `':'`, then the port, each printed as an f-string prints it (`None` as `"None"`). |
| `Supervisor.AddressKeySplits` | cogs/AstroDedicatedServer.py:62 | When the port has no `':'`, the key splits back at its last `':'` into exactly the address and the port. |
| `Supervisor.AstroDedicatedServer.Start` | cogs/AstroDedicatedServer.py:64-66 | Exactly one launch of `AstroServer.exe -log` from the server directory is recorded. When the launch succeeds, the process is running under its new pid. When `Popen` raises, the exception escapes and the old process is kept. |
| `Supervisor.AstroDedicatedServer.ServerLoopStep` | cogs/AstroDedicatedServer.py:68-90 | With no process started, reading `poll` raises `AttributeError`, with no call issued and no state change. Otherwise `poll()` is recorded. When it returns an exit code, the process is marked exited with that code and the step gives `Restart`, with no console query and no roster change. A process already marked exited gives `Restart` again. While the process runs, the console query is recorded, and a `None` reply changes neither `players` nor `onlinePlayers`. Otherwise the snapshot is stored. A longer list replaces the roster and reports a name that is new; a shorter one replaces it and reports a name that left. Equal lengths change nothing. An empty difference gives `IndexError` with the roster kept. With distinct names that error cannot occur, and the roster stays distinct. |
| `Presence.InGameNames` | cogs/AstroDedicatedServer.py:77-78 | The in-game list is never longer than the snapshot. |
| `Presence.InGameNamesMembers` | cogs/AstroDedicatedServer.py:77-78 | A name is in the list exactly when some snapshot entry with that name is in game. |
| `Presence.InGameNamesAppend` | cogs/AstroDedicatedServer.py:77-78 | The filter keeps snapshot order: filtering a concatenation gives the concatenation of the filtered parts. |
| `Presence.InGameNamesDistinct` | cogs/AstroDedicatedServer.py:77-78 | A snapshot without repeated names gives an in-game list without repeated names. |
| `Presence.Diff` | cogs/AstroDedicatedServer.py:80-89 | A longer list is a join whose candidates are exactly the names in the new list and not in the old one. A shorter list is a leave whose candidates are the names in the old list and not in the new one. Equal lengths are neither. |
| `Presence.JoinerExists` | cogs/AstroDedicatedServer.py:80-84 | A longer list without repeated names always has a newcomer to report, whatever the old roster held. |
| `Presence.LeaverExists` | cogs/AstroDedicatedServer.py:85-89 | A shorter list after a roster without repeated names always has a leaver to report. |
| `Presence.ReportableWhenDistinct` | cogs/AstroDedicatedServer.py:77-89 | With distinct names in the roster and the snapshot, every change of length has someone to report. |
| `Presence.SwapIsNotReported` | cogs/AstroDedicatedServer.py:80-89 | Replacing `A` by `B` in a roster of one is not a change: the roster is not updated and nothing is reported. |
| `Presence.RepeatedNameLeavesNothingToReport` | cogs/AstroDedicatedServer.py:80-82 | Roster `[A]` and new list `[A, A]`: the list is longer but the difference is empty, so the `[0]` lookup fails. |
| `Supervisor.AstroDedicatedServer.DeregisterAllServer` | cogs/AstroDedicatedServer.py:92-106 | It records the directory query for `ipPortCombo`, then one deregistration per returned record in order, stopping at the first that raises. It returns the records' `LobbyID`s, or an escaped exception. |
| `Supervisor.AstroDedicatedServer.DeregisterEach` | cogs/AstroDedicatedServer.py:99-102 | The loop issues the deregistrations of the records in order up to the first that raises. It reports whether all went through. |
| `Supervisor.Attempted` | cogs/AstroDedicatedServer.py:99-102 | The calls a loop reaches are a prefix of the planned calls. |
| `Supervisor.AttemptedAll` | cogs/AstroDedicatedServer.py:99-102 | When no call raises, every planned call is issued. |
| `Supervisor.AttemptedStops` | cogs/AstroDedicatedServer.py:116-117 | When call `k` is the first to raise, exactly calls `0..k` are issued. |
| `Supervisor.DeregisterAllIssuesOnePerRecord` | cogs/AstroDedicatedServer.py:93-105 | When nothing raises, exactly one deregistration per queried record is issued, in query order, after the query. The result is the list of their `LobbyID`s. |
| `Supervisor.DeregisterAllOnEmptyQuery` | cogs/AstroDedicatedServer.py:95-106 | An empty query result gives `[]` and no deregistration call. |
| `Supervisor.AstroDedicatedServer.KillServer` | cogs/AstroDedicatedServer.py:108-123 | It records deregistration, then child enumeration and kills, then the self-kill. A failure in one step never stops the later ones. |
| `Supervisor.AstroDedicatedServer.KillProcessTree` | cogs/AstroDedicatedServer.py:115-119 | With a process, its children are listed and killed in order until a kill raises. Without one, reading `pid` raises before any call. |
| `Supervisor.AstroDedicatedServer.KillChildren` | cogs/AstroDedicatedServer.py:116-117 | Children are killed in order up to the first kill that raises. |
| `Supervisor.KillAlwaysReachesLaterSteps` | cogs/AstroDedicatedServer.py:110-123 | Whatever the directory and the children do, the kill trace starts with the directory query and ends with the self-kill. For a started process, the child enumeration comes right after deregistration. When no kill raises, every child is killed. |
| `Web.CheckedHash` | cogs/AstroWebServer.py:31-38 | The hash in use is the configured one or `""`. It is always `""` or 64 characters, and a 64-character hash is kept. |
| `Web.WebServer.constructor` | cogs/AstroWebServer.py:19-42 | A hash whose length is not 64 is replaced by `""` in memory and in the launcher configuration, which is marked rewritten. A 64-character hash is kept and the configuration is not touched. |
| `Web.WebServer.Run` | cogs/AstroWebServer.py:67-86 | SSL is used when it is enabled and both the key and the certificate exist, or when an earlier call turned it on. A call that finds SSL already on while it is now disabled raises `UnboundLocalError`, because the file names are never assigned. Otherwise the announced URL is the one for that scheme and port. |
| `Web.ListenUrlPortSuffix` | cogs/AstroWebServer.py:83-86 | The URL is bare `https://localhost` or `http://localhost` exactly when the port is 443 or 80. Otherwise it is followed by `:` and digits that read back as the port. |
| `Web.MainGet` | cogs/AstroWebServer.py:107-114 | The main page redirects to `/login` exactly when the password hash is `""`. Otherwise it shows the status page with the admin flag and the `PublicIP:Port` title. |
| `Web.LoginGet` | cogs/AstroWebServer.py:122-129 | An admin is redirected to `/`. Anyone else gets the login form, which says whether a password is set. |
| `Web.LogoutGet` | cogs/AstroWebServer.py:155-157 | The login cookie is cleared (absent afterwards) and the reply redirects to `/`. |
| `Web.Login` | cogs/AstroWebServer.py:131-151 | With no hash, the post stores `sha256(password)` in memory and in the launcher configuration, sets no cookie and redirects to `/login`. With a hash set, it grants the `"admin"` cookie and redirects to `/` exactly when the digest matches. Otherwise it redirects to `/login` with the cookie untouched. A well-formed hash stays well formed. |
| `Web.WebServer.LoginPost` | cogs/AstroWebServer.py:131-151 | The handler's new hash, configuration hash, cookie and reply are those of `Login`. The stored hash stays `""` or 64 characters. |
| `Web.ChosenPasswordLogsIn` | cogs/AstroWebServer.py:131-151 | Choosing a password and then posting it again grants the admin cookie and redirects to `/`. |
| `Web.OnlyMatchingPasswordLogsIn` | cogs/AstroWebServer.py:141-151 | Once a password is set, a non-admin becomes admin exactly when the posted password's digest equals the stored hash. |
| `Web.Gate` | cogs/AstroWebServer.py:199-209 | A non-admin gets `"Not Authenticated"`, `busy` is unchanged and no job starts. An admin gets `"Success"` and `busy` is set. The endpoint's job starts exactly when `busy` was clear. |
| `Web.AdminPost` | cogs/AstroWebServer.py:198-237 | Each of the three admin handlers updates `busy`, starts a job and replies as `Gate` says. The jobs are save, save-and-shutdown, and kill with `"Website Request"`. |
| `Web.GateIsSingleFlight` | cogs/AstroWebServer.py:200-207 | Two admin posts in a row start at most one job. |
| `Web.LastN` | cogs/AstroWebServer.py:171 | Python's `xs[-n:]`: for `n > 0` it keeps the last `min(n, len)` items, which end the list. For `n == 0` it is the whole list. |
| `Web.LogTailLines` | cogs/AstroWebServer.py:169-171 | The tail's lines are exactly the log's last lines, at most 200 of them. |
| `Web.LogTailOfShortLog` | cogs/AstroWebServer.py:169-171 | A log of at most 200 lines is returned whole. |
| `Web.LogTailIsSuffix` | cogs/AstroWebServer.py:169-171 | The tail is the end of the log. |
| `Web.ApiGet` | cogs/AstroWebServer.py:161-195 | The admin flag follows the cookie. Non-admins get `""` as the log. Admins get exactly the log's tail, `LogTail`: at most 200 lines that end the log. Players, address and port are passed through. |
| `Text.JoinSplit` | cogs/AstroWebServer.py:170-171 | Joining the pieces of a split gives back the string. |
| `Text.SplitJoin` | cogs/AstroWebServer.py:170-171 | Splitting a join of separator-free pieces gives back the pieces. |
| `Text.DecimalRoundTrip` | cogs/AstroWebServer.py:83-86 | The decimal rendering of a port reads back as the port. |

## Left out

- `Supervisor.AstroDedicatedServer.ServerLoopStep` reports some element of the set difference. Which one Python's set iteration order picks is not modelled.
- `Supervisor.AstroDedicatedServer.ServerLoopStep` models one iteration. The `while True` loop, the `time.sleep` pacing and the call to the launcher's `start_server` after a restart are left out; the loop returns `Restart` instead.
- `Supervisor.AstroDedicatedServer.KillServer` records the self-kill as its last call. That this call ends the process is not modelled. The kill reason is only logged.
- Logging through `AstroLogging` is left out. The joined or left name is the step's outcome.
- `ServerSettings` keeps the 8 fields that the core reads. `ValidateSettings.get_current_settings` and `dataclasses.replace` are not part of this model. The loaded settings arrive as one record.
- The console protocol (`AstroRCON.DSListPlayers`) and the directory HTTP API (`AstroAPI.get_server`, `deregister_server`, and their headers) are not part of this model. Their answers are parameters.
- Process control (`subprocess.Popen`, `psutil`, `os.kill`) is recorded as calls. Pids are parameters, and `os.path.join` of the executable path is kept as directory plus file name.
- `time.sleep(1)` after deregistration is left out.
- `Supervisor.Directory` keys deregistration failures by `LobbyID`. If one query listed the same id twice and only its second deregistration raised, the model could not express that.
- Tornado routing, template rendering, cookie signing and the random `cookie_secret` are left out. The asset directory, `ssl_options` paths and the IO loop are left out too. File existence for SSL is a boolean input.
- SHA-256 and the UTF-8 encoding of the password are a function parameter. A missing `password` argument (Tornado's error reply) is not modelled.
- `overwrite_launcher_config` and `refresh_launcher_config` are reduced to the launcher's copy of the hash and a "rewritten" flag.
- `Web.ApiGet` leaves out the `status` and `stats` fields. Those attributes are not defined in cogs/AstroDedicatedServer.py.
- `Web.AdminPost` records the thread's job but does not run it. The model also leaves out the check-then-set race on `busy`. `saveGame`, `save_and_shutdown` and the initial `busy` are not defined in cogs/AstroDedicatedServer.py. The shutdown job keeps the two arguments the handler passes (`"Website Request"`, `True`), although `kill_server` in cogs/AstroDedicatedServer.py takes only a reason.

## Findings

| source | as written | input that shows it | evidently intended | confidence | as-written member | corrected member |
|---|---|---|---|---|---|---|
| cogs/AstroDedicatedServer.py:47-57 | `serverGUID` is computed from `ServerSettings()` defaults before `refresh_settings()` loads the configuration. Its `ServerGuid` is `None`, so `serverGUID` is always `None`. | a configuration whose `ServerGuid` is `"abc"`: `serverGUID` is `None`, not `"abc"` | take the loaded `ServerGuid`, and `"REGISTER"` when it is empty | medium, not executed | `Supervisor.ServerGuidAsWrittenIgnoresConfig` | `Supervisor.ServerGuidFor` |
