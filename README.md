# TradeTrack sync core in Dafny

This project models how TradeTrack turns MetaTrader 5 trading history into
trades in a user's journal, and proves properties of that model. It covers
two sides.

- **The backend.** The `sync_trades` handler groups the terminal's raw deals
  by position and picks each position's exit and entry legs. It derives a
  deterministic `terminalTradeId` and checks it against the trade ledger.
  A known id is counted as skipped; a new one is inserted as a row and counted
  as synced; a failing position is counted as an error. Finally the handler
  moves the account's `last_sync_at` watermark. Around it sit the bearer-token
  check, the account-ownership check, the credential upsert of `connect_mt5`
  and the session client `MT5Client`.
- **The desktop bridge.** `run_sync` fetches deals since the stored
  watermark and moves the watermark only when the post worked or there was
  nothing to send. It always disconnects from the terminal once connected.
  Around it sit:
  - the local HTTP server that receives the configuration from the browser
    and answers sync requests;
  - the `state.json` key/value store;
  - the localisation table.

## How the model is built

- **Modules follow the source files.**
  - `Reconciliation` holds the pure specification of the handler's loop.
    This is `Run`, which processes positions in order against a growing
    ledger, and `Reconcile`, which applies `Run` to all the positions.
  - `Backend.Backend` is a class whose `trades` field is the ledger table.
    Its methods perform the handler's loops step by step and are proved
    equal to `Reconcile`.
  - `Mt5Client.MT5Client`, `BridgeConfig.StateStore`,
    `BridgeConfig.ConfigStore` and `ConfigServer.BridgeServer` are classes
    over the state their source counterparts update in place.
- **The MetaTrader5 library becomes the class `Terminal.Terminal`.**
  - It records whether a session is open and how often `shutdown` ran.
  - The answers of `initialize`, `login` and `last_error` are parameters.
  - `history_deals_get` is a function parameter (`HistoryOracle`).
- **Other outside inputs are parameters.**
  - Clocks are integer epoch seconds.
  - Exceptions raised while processing one position are a map from
    position id to `Fault`.
  - The Fernet cipher is a pair of functions.
  - The bridge's network post is a boolean.
  - The sync runner's result reaches the HTTP server as a `RunOutcome`.
- **Python semantics are written out.** This covers truthiness, `or`,
  `dict.get`, `int()`, `str()`, `str.strip`, `str.rstrip`, `str.replace`,
  `in`, `str.join` and `str.format` with one `{}`. It lives in the modules
  `Text` and `PyValue`.
- **The model follows the code in three places where a reader might expect otherwise:**
  - Deals whose position id is 0 or missing are dropped. They do not fall
    back to their ticket.
  - Deal type codes are not filtered: every type code other than 0 becomes
    `SELL`.
  - When a group holds several legs of one kind, the last one wins
    (`LastWithEntrySpec`).

## Model

| member | source | states |
|---|---|---|
| Reconciliation.PositionsSpec | app/routers/mt5.py:257-264 | the grouping keys are distinct and never 0. A key is present iff some deal carries that non-zero position id, and there are no more keys than deals. |
| Reconciliation.DealsOfSpec | app/routers/mt5.py:262-264 | a position's group holds exactly the deals of that position. It is non-empty iff the position occurs. |
| Reconciliation.DealsOfAbsent | app/routers/mt5.py:259-261 | a non-zero position that is not a grouping key has no deals. |
| Reconciliation.GroupByPosition | app/routers/mt5.py:257-264 | the loop's key order is `Positions(deals)` (insertion order of the dict). The dict's keys are exactly those positions, and each key maps to exactly that position's deals in their original order. |
| Reconciliation.LastWithEntrySpec | app/routers/mt5.py:271-276 | the picked leg is absent iff no deal of the group has that entry code. Otherwise it is a deal with that code, and no later deal has the code. |
| Reconciliation.PickLegs | app/routers/mt5.py:268-276 | the nested scan that overwrites `exit_deal`/`entry_deal` ends with the last exit-coded and the last entry-coded deal. |
| Reconciliation.TradeIdRoundTrip | app/routers/mt5.py:281 | the id `mt5_<position>_<ticket>` can be parsed back into the position and the exit ticket. |
| Reconciliation.TradeIdInjective | app/routers/mt5.py:281 | two positions or exit tickets that differ never share a terminal trade id. |
| Reconciliation.BuildRow | app/routers/mt5.py:293-346 | the inserted row contains the following: the terminal trade id of the position and the exit ticket; the exit time; the entry leg's time, or one hour before the exit when there is no entry leg; BUY iff the exit type code is 0; the absolute exit volume; the exit profit as both profit and pnl; the account; terminal name "mt5"; `fromTerminal`. |
| Reconciliation.DecideSpec | app/routers/mt5.py:267-350 | for one position there are five outcomes. No exit leg means open (nothing counted). A failed existence query means an error. A known id means a duplicate. A failed insert means an error that names the position. Otherwise exactly one row with a new id is inserted. |
| Reconciliation.RunStep | app/routers/mt5.py:266-350 | the loop adds one position's outcome on top of the tally of the positions before it. |
| Reconciliation.ClosedCount | app/routers/mt5.py:278-279 | the number of closed positions is at most the number of positions. |
| Reconciliation.RunCounts | app/routers/mt5.py:266-350 | synced + skipped + errors equals the number of closed positions. Open positions change no counter. `synced` equals the number of rows inserted; the inserted ids are pairwise distinct and none was already in the ledger (exactly-once insertion). |
| Reconciliation.ReconcileBounds | app/routers/mt5.py:257-350 | synced + skipped + errors ≤ number of non-zero positions ≤ number of deals. |
| Reconciliation.RunGrows | app/routers/mt5.py:283-347 | the set of ids inserted only grows as the loop proceeds. |
| Reconciliation.RunRecordsCleanPositions | app/routers/mt5.py:281-347 | after the run, every closed position without a fault has its id in the ledger, whether it was inserted now or before. |
| Reconciliation.RetryAfterRun | app/routers/mt5.py:283-350 | a fault-free re-run against the ledger as it is after the first run has three properties. It has no errors. Everything the first run synced or skipped is now skipped. What it newly syncs is at most the first run's errors. |
| Reconciliation.Idempotent | app/routers/mt5.py:283-291 | a second fault-free run over the same deals against the updated ledger syncs nothing, inserts nothing and skips what the first run synced or skipped. |
| Reconciliation.NoFaultsNoErrors | app/routers/mt5.py:349-350 | without exceptions the error list is empty. |
| Reconciliation.ErrorsNameTheirPosition | app/routers/mt5.py:349-350 | every error reads "Error processing position <p>: <reason>" for a position p that faulted. |
| Reconciliation.ClosedPositionScenario | app/routers/mt5.py:266-347 | an entry leg at 100 and an exit leg at 200 with ticket 77 make exactly the trade `mt5_5_77` from 100 to 200. |
| Reconciliation.ExitOnlyScenario | app/routers/mt5.py:296-299 | a lone exit leg at 300 makes one trade whose entry time is 300 − 3600. |
| Reconciliation.OpenPositionScenario | app/routers/mt5.py:278-279 | a position with only an entry leg changes nothing. |
| Reconciliation.ThreePositions | app/routers/mt5.py:257-264 | three deals of positions 1, 2, 3 make three one-deal groups in that order. |
| Reconciliation.FaultIsolationScenario | app/routers/mt5.py:266-350 | three closed positions where the insert of the second fails give synced 2 and exactly one error, which names position 2. |
| Reconciliation.AsWrittenRecordsOpenPosition | app/routers/mt5.py:273-276 | with the terminal's numbering, a position holding only its opening deal is recorded as a finished trade. |
| Reconciliation.AsWrittenSwapsDates | app/routers/mt5.py:273-276 | with the terminal's numbering, a closed position is recorded with its exit time before its entry time. |
| Reconciliation.TerminalCodesKeepDates | app/routers/mt5.py:273-276 | with the terminal's codes, the same position gets entry 100 and exit 200 and is keyed by the closing ticket. |
| Reconciliation.TerminalCodesSkipOpenPositions | app/routers/mt5.py:278-279 | with the terminal's codes, deals that contain no closing deal produce no trade and change no counter. |
| Backend.RemoveLeadingPattern | app/routers/mt5.py:32 | removing "Bearer " from a text that starts with it drops that first occurrence. |
| Backend.GetAuthorizationToken | app/routers/mt5.py:26-32 | the header is rejected with 401 "Invalid authorization header" iff it does not start with "Bearer ". An accepted token is no longer than the header minus the prefix. |
| Backend.BearerRoundTrip | app/routers/mt5.py:26-32 | a header "Bearer " + token yields the token back when the token holds no further "Bearer ". |
| Backend.HasAccess | app/routers/mt5.py:35-51 | access is granted iff the trading account exists and belongs to the calling user. |
| Backend.AccessIsExclusive | app/routers/mt5.py:35-51 | an account grants access to one user only. |
| Backend.EncryptionRoundTrip | app/encryption.py:18-29 | decrypting an encrypted password gives it back, provided the cipher pair inverts and the cipher never yields the empty text. |
| Backend.IdsAppend | app/routers/mt5.py:337-347 | appending rows to the ledger adds exactly their ids. |
| Reconciliation.RunAdvance | app/routers/mt5.py:266-350 | one more position advances the specification run by that position's outcome. |
| Backend.Backend.constructor | app/models.py:1-20 | the backend starts with the given owners, ledger, terminal path and leg codes, and no credentials. |
| Backend.Backend.WritePosition | app/routers/mt5.py:267-350 | one position's outcome is `Decide` against the current ledger. The ledger grows by the inserted row and by nothing else. |
| Backend.Backend.WriteStep | app/routers/mt5.py:267-350 | one loop step records the position's outcome in the tally, and the ledger grows by exactly the rows the tally gained. |
| Backend.Backend.WriteGroups | app/routers/mt5.py:266-350 | the loop over the grouped positions leaves counters, errors and ledger equal to the specification `Run`. |
| Backend.Backend.WriteTrades | app/routers/mt5.py:253-350 | grouping then the loop yields exactly `Reconcile`: the rows it names are appended to the ledger and its counters and errors are returned. |
| Backend.Backend.SyncTrades | app/routers/mt5.py:199-364 | the handler has these outcomes. 403 without access and 404 without credentials. A non-CONNECTED status gives a failure that changes nothing. A missing library gives the framework's generic 500, because `MT5Client()` raises. A failed connect sets ERROR and the error message, keeps the watermark and the ledger, and leaves no session open. Otherwise the deals of [watermark or now − 30 days, now] are reconciled, `total` is the raw deal count, the watermark becomes the end clock even when there are errors, the status is CONNECTED, and the terminal is shut down once. |
| Backend.Backend.ConnectMt5 | app/routers/mt5.py:54-118 | 403 without access. The generic 500 without the library, because `MT5Client()` raises. A failed connect gives ERROR with the client's message and no credential change. Otherwise the account's credential row is upserted as CONNECTED with the login, the server and the encrypted password. An existing row keeps its id and watermark; a new row gets the next id and no watermark. |
| Terminal.Terminal.constructor | bridge/mt5_sync.py:5-10 | a fresh library has no open session and no shutdowns. |
| Terminal.Terminal.Initialize | app/mt5_client.py:32 | `initialize` opens a session with the given path iff it succeeds. |
| Terminal.Terminal.Shutdown | bridge/mt5_sync.py:36-38 | `shutdown` closes the session and is counted. |
| Terminal.InitPath | bridge/mt5_sync.py:24-26 | a path is passed to `initialize` only if it is non-blank, and then stripped. |
| Terminal.BridgeConnect | bridge/mt5_sync.py:15-33 | success iff the library is installed and init and login succeed, with the session left open. Otherwise the message is "not installed", "MT5 init failed: …" or "MT5 login failed: …", and a failed login shuts the terminal down. |
| Terminal.BridgeDisconnect | bridge/mt5_sync.py:36-38 | with the library installed the session is shut down. Without it nothing happens. |
| Terminal.BridgeGetDeals | bridge/mt5_sync.py:41-50 | the deals are the library's answer, or empty when the library is missing or answers None. |
| Mt5Client.MT5Client.constructor | app/mt5_client.py:16-26 | a client exists only with the library installed, and starts disconnected with no login or server. |
| Mt5Client.MT5Client.Connect | app/mt5_client.py:28-45 | success iff init and login succeed. Success sets connected, the login and the server. A failure leaves them as they were and leaves no session open. A login failure shuts the terminal down. The error text follows the source's. |
| Mt5Client.MT5Client.Disconnect | app/mt5_client.py:47-55 | a connected client shuts down once and clears connected, login and server. A disconnected client changes nothing, so disconnecting twice is the same as once. |
| Mt5Client.MT5Client.GetAccountInfo | app/mt5_client.py:57-63 | None when not connected, else the library's answer. |
| Mt5Client.MT5Client.GetDeals | app/mt5_client.py:65-82 | empty when not connected or when the library answers None, else the library's deals. |
| Mt5Client.MT5Client.IsConnected | app/mt5_client.py:84-87 | true iff connected and the terminal reports its info. |
| BridgeSync.StrippedOrEmpty | bridge/main.py:56-60 | a falsy value reads as "", a string is stripped, and any other truthy value raises. |
| BridgeSync.GetHeaders | bridge/main.py:29-31 | the headers are a bearer header and the JSON content type. They exist iff the token value can be stripped. |
| BridgeSync.HeaderCarriesToken | bridge/main.py:29-31 | the backend's token check reads back exactly the stripped configured token from the bridge's header. |
| BridgeSync.ValidateConfig | bridge/main.py:55-72 | validation passes iff the five text fields are non-empty after strip and mt5_login converts to an integer. Otherwise it exits with one of the three source messages, or raises. |
| BridgeSync.SyncWindow | bridge/main.py:136-141 | the window runs from the stored watermark, or from 30 days before the first clock reading when there is none, to the second reading. A stored value that is not a string raises. |
| BridgeSync.NextWindowStartsAtWatermark | bridge/main.py:136-151 | after the watermark is saved, the next run's window starts exactly at the saved end. |
| BridgeSync.ConnectFailedMessageForm | bridge/main.py:128-133 | the failure message is the template with the error filled in, plus the hint iff the error contains "-6" or "Authorization failed". |
| BridgeSync.BaseUrl | bridge/main.py:85 | a falsy base URL reads as "", a string loses its trailing '/' characters, and any other value raises. |
| BridgeSync.ValidatedConfigPosts | bridge/main.py:55-117 | a config that passes `_validate_config` never raises while its posts are built. |
| BridgeSync.RunSync | bridge/main.py:120-155 | the run meets `RunSyncResult` and `RunSyncSession`. A bad login raises before connecting. A connect failure returns (False, message, 0) and keeps the watermark. A library session that was opened is shut down exactly once, and none is left open. An empty fetch saves the window end and returns success with 0; it raises after saving when the acknowledgement cannot be built. With deals, a post that cannot be built raises and a refused post returns False, both keeping the watermark. An accepted post saves the window end and returns the deal count. |
| BridgeConfig.LoadState | bridge/config.py:34-41 | a missing or undecodable state file reads as the empty map. |
| BridgeConfig.NormalLanguage | bridge/config.py:72 | the stored language is always "uk" or "en", and it equals the request iff the request is one of those. |
| BridgeConfig.LanguageOf | bridge/config.py:64-66 | the stored language if it is present and truthy, else "uk". |
| BridgeConfig.StateStore.constructor | bridge/config.py:15 | the store starts with the given file. |
| BridgeConfig.StateStore.LoadLastSync | bridge/config.py:49-50 | the stored watermark, or null. |
| BridgeConfig.StateStore.SaveLastSync | bridge/config.py:53-56 | the file becomes the old state with only `last_sync_at` set. |
| BridgeConfig.StateStore.HasSavedLanguage | bridge/config.py:59-61 | true iff the key "language" is present. |
| BridgeConfig.StateStore.GetLanguage | bridge/config.py:64-66 | the state's language, defaulting to "uk". |
| BridgeConfig.StateStore.SaveLanguage | bridge/config.py:69-73 | the file becomes the old state with only `language` set, to its normal form. |
| BridgeConfig.SaveThenLoadLastSync | bridge/config.py:49-56 | loading after saving a watermark gives it back, and every other key keeps its value. |
| BridgeConfig.SaveThenGetLanguage | bridge/config.py:64-73 | after a save the language reads back as the normalised request and the key is present. Every other key, the watermark included, is unchanged. |
| BridgeConfig.MissingStateIsEmpty | bridge/config.py:34-50 | a missing state has no watermark and no saved language, and reads as Ukrainian. |
| BridgeConfig.ConfigStore.constructor | bridge/config.py:14 | the store starts with the given file. |
| BridgeConfig.ConfigStore.SaveConfig | bridge/config.py:18-21 | the file holds exactly the given config. |
| BridgeConfig.ConfigStore.LoadConfig | bridge/config.py:24-31 | a missing file gives FileNotFoundError, an undecodable file a decoding error, and otherwise the stored object. |
| I18n.ResolveLang | bridge/i18n.py:117-119 | the language used is "en" exactly for "en" and "uk" for everything else, None included. |
| I18n.GetTextIn | bridge/i18n.py:115-120 | a known key gives the entry in the resolved language, else its "uk" entry, else the key. An unknown key gives the key itself. |
| I18n.TextsComplete | bridge/i18n.py:11-107 | every message has a "uk" and an "en" text, and every key the bridge's modules pass to `get_text` is in the table, so no lookup falls back to the bare key. |
| I18n.TextsNonEmpty | bridge/i18n.py:11-107 | no message of the table is empty in either language. |
| I18n.GetTextKnown | bridge/i18n.py:115-120 | on a complete table a known key gives its "en" entry for "en" and its "uk" entry otherwise. |
| PyValue.Or | bridge/main.py:123-126 | `v or d` is v when v is truthy, else d. |
| PyValue.Get | bridge/config_server.py:98 | `dict.get` yields the value, or None for a missing key. |
| PyValue.PyInt | bridge/main.py:68-72 | `int()` of a number is that number. It raises for None and for containers. |
| PyValue.PyStr | bridge/config_server.py:109-115 | `str()` of a string is the string, and `str()` of a number reads back as that number. |
| Text.Strip | bridge/main.py:56-60 | `str.strip` removes exactly the whitespace prefix and suffix. The result has no whitespace at either end. |
| Text.StripIdempotent | bridge/config_server.py:109-115 | stripping twice is stripping once. |
| Text.RStripChar | bridge/config_server.py:109 | `rstrip("/")` gives a prefix of its input that no longer ends in '/'. Only '/' characters were removed. |
| Text.Contains | bridge/main.py:131 | `sub in s` holds iff sub occurs at some index of s. |
| Text.RemoveAll | app/routers/mt5.py:32 | `replace(pat, "")` never lengthens the text. |
| Text.RemoveAbsent | app/routers/mt5.py:32 | replacing a pattern that does not occur changes nothing. |
| Text.IntToStringRoundTrip | app/routers/mt5.py:281 | `int(str(n)) == n` for every integer. |
| Text.IntToStringInjective | app/routers/mt5.py:281 | different integers have different decimal texts. |
| Text.SplitFirstAt | app/routers/mt5.py:281 | splitting `a + "_" + b` at its first '_' gives back a and b when a has no '_'. |
| Text.FormatOneAt | bridge/main.py:130 | `"a{}b".format(x)` is a + x + b. |
| Text.Join | bridge/config_server.py:100 | joining no items gives "", and one item gives that item. |
| ConfigServer.RouteOf | bridge/config_server.py:44-85 | the routes are as follows. OPTIONS is preflight. GET "/" or "/status" is the status page. POST exactly "/config" is the config upload. GET or POST with a path starting "/sync-request" is a sync request. Anything else is 404. Each case is an iff. |
| ConfigServer.MissingKeys | bridge/config_server.py:98 | a key is reported iff it is required and its value is missing or falsy. The report keeps the order of `REQUIRED_KEYS` (line 17). |
| ConfigServer.Normalize | bridge/config_server.py:108-116 | the login is the converted integer and the password is kept verbatim. |
| ConfigServer.SettingsJson | bridge/config_server.py:108-116 | the saved object has exactly the seven config keys with the normalised values. |
| ConfigServer.NormalizeIsClean | bridge/config_server.py:108-116 | the token, account id, server and mt5_path are stripped, and mt5_path defaults to "". The base URL is a prefix of the stripped value with every trailing '/' removed. |
| ConfigServer.SavedConfigValidates | bridge/config_server.py:108-116 | the mt5_login the server saves converts back to the same integer in `run_sync` and passes `_validate_config`'s number check. |
| ConfigServer.SavedConfigPosts | bridge/config_server.py:108-116 | a sync run on a config the server saved never raises while building its posts, because the saved base URL and token are strings. |
| ConfigServer.AcceptConfig | bridge/config_server.py:98-116 | the config is accepted iff no required key is missing and mt5_login converts to an integer. Missing keys give "Missing: k1, k2…" in order, a bad login gives "mt5_login must be a number", and acceptance yields the normalised object. |
| ConfigServer.AcceptedHasAllKeys | bridge/config_server.py:98-101 | an accepted config has every required key with a truthy value. |
| ConfigServer.ConfigOutcome | bridge/config_server.py:87-116 | an unparsable Content-Length aborts the request. A length of 0 gives 400 "Empty body" before any parsing. Undecodable JSON gives 400 with the decoder's error. A body that is not an object aborts. Otherwise the result is the acceptance result. The config is saved iff the body is an accepted object of non-zero length. No error path answers 200. |
| ConfigServer.SyncResponse | bridge/config_server.py:138-149 | runner success gives 200 with the message and count. Failure gives 500 with the message. An exception from the runner aborts the request. |
| ConfigServer.SyncFinished | bridge/config_server.py:139-149 | after the runner, a status message and a log message are queued. The status is an error iff the run failed. |
| ConfigServer.BridgeServer.constructor | bridge/config_server.py:159-171 | the server starts with its stores, terminal and class-level hooks, an empty queue and no notices. |
| ConfigServer.BridgeServer.Push | bridge/config_server.py:36-42 | a message is queued only when a queue is set. |
| ConfigServer.BridgeServer.HandleConfig | bridge/config_server.py:87-123 | error paths answer with their code and save nothing, queue nothing and notify nobody. Success saves exactly the normalised config and answers 200. It then queues the two log lines in the stored language when a queue is set, and notifies once when a callback is set. |
| ConfigServer.BridgeServer.SaveReceived | bridge/config_server.py:117-123 | the config is saved, the answer is 200, and the log lines and the notification follow. |
| ConfigServer.BridgeServer.Report | bridge/config_server.py:138-149 | the answer is the runner's mapped outcome, and the closing messages are queued. |
| ConfigServer.BridgeServer.HandleSyncRequest | bridge/config_server.py:125-149 | no runner gives 500 and a missing config gives 400; a corrupt config aborts. None of these changes the state or the terminal or queues anything. With a config, the run meets `RunSyncResult` and `RunSyncSession` on the loaded config. The three opening messages are queued, then the runner's response and the closing messages. |
| ConfigServer.BridgeServer.SyncConfigured | bridge/config_server.py:134-149 | the runner's outcome meets `RunSyncResult` and `RunSyncSession` on the loaded config, the answer follows that outcome, and the messages around it are queued in the stored language. |
| ConfigServer.BridgeServer.HandleStatus | bridge/config_server.py:49-70 | the answer is 200 with the localised description and endpoints. `connected` is true iff a config file exists, with the matching status text. A corrupt config aborts after the header. |
| ConfigServer.BridgeServer.Handle | bridge/config_server.py:44-85 | preflight answers 204 and unknown paths 404, and neither changes anything. The status page answers as `HandleStatus` does. The config upload answers as `ConfigOutcome` says and saves only an accepted config. A sync request gives 500 without a runner and 400 without a config, and otherwise answers for a run that meets `RunSyncResult`. Only the config upload can change the config file, and only a sync request can touch the terminal or the state file. |

## Left out

- HTTP plumbing is not modelled. This covers FastAPI dependencies, `HTTPException` mechanics, CORS headers, `BaseHTTPRequestHandler` response writing and request verbs other than GET, POST and OPTIONS. Responses are values: a code plus a body, no body, or `Aborted` for an exception that escapes the handler.
- Reading `Content-Length` bytes and decoding them as UTF-8 and JSON are abstracted into `Payload`: undecodable with the decoder's message, not an object, or an object.
- The JSON value type has null, booleans, integers, strings and opaque containers (truthiness and `str()` text only). Floats are not modelled. `int()` accepts ASCII digits only, not Unicode digits or underscores.
- ISO-8601 timestamps and `datetime`/`pytz` arithmetic are not modelled. Times are integer epoch seconds, and the bridge's stored watermark is their decimal text.
- The SQL text, the SQLAlchemy session and commits become a ledger of rows and a credential map. Transactions are not modelled: a failed statement does not poison later statements, and the existing-row branch of `connect_mt5`, which has no `commit`, is modelled as if its update persisted. app/database.py is not part of this model.
- JWT decoding (`verify_token`, `get_user_id_from_token`) is not modelled. The user id is a parameter.
- Fernet is not modelled. Encryption is a pair of function parameters, and `sync_trades` does not model decryption, because the password only reaches the terminal oracle.
- The MetaTrader5 library is an oracle: `initialize`, `login` and `last_error` are boolean and string parameters, and `history_deals_get` is a function parameter. `account_info`, `terminal_info` and the connection timeout are parameters or left out.
- The bridge's network calls are not sent. The answer of `post_sync_deals` is the boolean `postOk`. `post_bridge_sync_done`'s answer is ignored by `run_sync`. What the model keeps of both posts is the exception that building their URL and headers can raise (`BridgeSync.PostBuilds`). `post_bridge_connected` runs outside `run_sync` and is not modelled.
- The GUI message queue is a sequence of messages, and the `on_config_received` callback is a counter of notifications.
- Threads, server start and stop (`run_bridge_server_forever`, `run_config_server_until_received`), bridge/gui.py and the `main()` dispatch of bridge/main.py are left out as concurrency, UI and console I/O.
- `test_connection`, `get_status`, `disconnect_mt5` and the `/api/mt5/sync/deals` endpoint that receives the bridge's deals are left out. The last is not part of this model.
- ConfigServer.SyncFinished: states the number of messages and which status is an error, not the exact log texts.
- Mt5Client.MT5Client.Connect: requires an installed library, because the constructor already raises without one. The source's unreachable "not available" branch of `connect` is therefore not modelled.
- Text.RemoveAll: states only that the text does not grow (`RemoveAbsent` and `RemoveLeadingPattern` give its exact effect in two cases). No "nothing remains" property is claimed, because removing one occurrence can join two halves into a new one.
- BridgeConfig.LoadState: a state file that decodes to a non-object is not modelled. A `state.json` that is not valid UTF-8 makes `_load_state` raise `UnicodeDecodeError`, which it does not catch; the model reads every undecodable file as the empty map. For `config.json`, `load_config` returns whatever `json.load` decodes (bridge/config.py:30-31). A file holding a list or a string would make `run_sync`'s first `cfg.get` raise inside `_handle_sync_request`. `ConfigFile` has no such case, because `save_config` only ever writes an object.

## Findings

| source | as written | input that shows it | evidently intended | confidence | as-written member | corrected member |
|---|---|---|---|---|---|---|
| app/routers/mt5.py:273-276 | a deal with entry code 0 is taken as the exit leg and 1 as the entry leg. In MetaTrader 5's ENUM_DEAL_ENTRY, 0 is DEAL_ENTRY_IN (opens a position) and 1 is DEAL_ENTRY_OUT (closes it). | a position with deals {entry 0, time 100, ticket 41} and {entry 1, time 200, ticket 42}: the trade gets exit 100 and entry 200 and is keyed by the opening ticket. A position with only {entry 0} is recorded as a closed trade while still open. | take entry 1 (OUT) as the exit leg and 0 (IN) as the entry leg | medium, not executed | Reconciliation.AsWrittenSwapsDates | Reconciliation.TerminalCodesKeepDates |

The handler is modelled over its leg codes: `Backend.Backend` takes a
`LegCodes` value when it is built. `Reconciliation.SourceLegCodes` models the
code as written. `Reconciliation.TerminalLegCodes` is the corrected
numbering, and under it `Reconciliation.TerminalCodesSkipOpenPositions`
proves that a position with no closing deal produces no trade. Every other
property of the reconciliation is proved for any pair of distinct codes, so
it holds for both.
