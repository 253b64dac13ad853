/**
 * The bridge's local HTTP server (bridge/config_server.py): the browser
 * posts the settings to `/config`, asks for a sync with `/sync-request` and
 * reads the bridge's state from `/` or `/status`. Responses are values; the
 * GUI's message queue is a sequence the handlers append to.
 */
module ConfigServer {
  import opened Common
  import opened Text
  import opened PyValue
  import opened Deals
  import opened Terminal
  import opened I18n
  import opened BridgeConfig
  import opened BridgeSync

  // ---------------------------------------------------------------- routing

  datatype Verb = GetVerb | PostVerb | OptionsVerb

  datatype Route = StatusPage | SyncRequest | ConfigUpload | Preflight | UnknownPath

  /** `do_GET`, `do_POST` and `do_OPTIONS` (bridge/config_server.py:44-85). */
  function RouteOf(verb: Verb, path: string): (r: Route)
    ensures r == Preflight <==> verb == OptionsVerb
    ensures r == StatusPage <==> verb == GetVerb && (path == "/" || path == "/status")
    ensures r == ConfigUpload <==> verb == PostVerb && path == "/config"
    ensures r == SyncRequest <==> verb != OptionsVerb && StartsWith(path, "/sync-request")
    ensures r == UnknownPath <==>
      verb != OptionsVerb && !StartsWith(path, "/sync-request")
      && !(verb == GetVerb && (path == "/" || path == "/status")) && !(verb == PostVerb && path == "/config")
  {
    match verb
    case OptionsVerb => Preflight
    case GetVerb =>
      if path == "/" || path == "/status" then StatusPage
      else if StartsWith(path, "/sync-request") then SyncRequest
      else UnknownPath
    case PostVerb =>
      if path == "/config" then ConfigUpload
      else if StartsWith(path, "/sync-request") then SyncRequest
      else UnknownPath
  }

  // ---------------------------------------------------------------- responses

  /** The JSON objects the server answers with. */
  datatype Body =
    | ErrorBody(error: string)                          // {"error": error}
    | ConfigSaved                                       // {"ok": true, "message": "Config saved. Connecting..."}
    | SyncOk(message: string, synced: nat)              // {"ok": true, "message": message, "synced": synced}
    | SyncFailed(error: string)                         // {"ok": false, "error": error}
    | StatusBody(description: string, configEndpoint: string, syncEndpoint: string, connected: bool, status: string)

  const AppName := "TradeTrack Sync"

  /** A response with a JSON body, one without a body, or a handler that raised and left the connection without an answer. */
  datatype Response = Respond(code: int, body: Body) | NoBody(code: int) | Aborted

  /** What the handlers put on the GUI's queue: `("log", text)` or `("status", text, is_error)`. */
  datatype Message = Log(text: string) | Status(text: string, isError: bool)

  // ---------------------------------------------------------------- the settings

  const RequiredKeys: seq<string> := ["api_base_url", "sync_token", "trading_account_id", "mt5_login", "mt5_password", "mt5_server"]

  /** `s` is `keys` with some elements left out, the rest in their order. */
  predicate IsSubsequence(s: seq<string>, keys: seq<string>)
    decreases |keys|
  {
    if s == [] then true
    else if keys == [] then false
    else if s[0] == keys[0] then IsSubsequence(s[1..], keys[1..])
    else IsSubsequence(s, keys[1..])
  }

  /** `[k for k in keys if not data.get(k)]`: the keys that are absent or falsy, in the order of `keys`. */
  function MissingKeys(keys: seq<string>, data: map<string, Json>): (m: seq<string>)
    ensures forall k :: k in m <==> k in keys && !Truthy(Get(data, k))
    ensures IsSubsequence(m, keys)
    decreases |keys|
  {
    if keys == [] then []
    else
      var rest := MissingKeys(keys[1..], data);
      if !Truthy(Get(data, keys[0])) then [keys[0]] + rest else rest
  }

  /** The body of `/config` as the server reads it: not JSON (with the decoder's message), JSON that is not an object, or an object. */
  datatype Payload = Undecodable(error: string) | NotAnObject | Object(data: map<string, Json>)

  /** The keys of a saved config. */
  const ConfigKeys: set<string> := {"api_base_url", "sync_token", "trading_account_id", "mt5_login", "mt5_password", "mt5_server", "mt5_path"}

  /** `str(data.get(k)).strip()`. */
  function TextField(data: map<string, Json>, k: string): string {
    Strip(PyStr(Get(data, k)))
  }

  /** The fields of a saved config. */
  datatype Settings = Settings(apiBaseUrl: string, syncToken: string, tradingAccountId: string,
                               mt5Login: int, mt5Password: string, mt5Server: string, mt5Path: string)

  /** The normalised fields (bridge/config_server.py:108-116): trimmed text, the URL without trailing '/', the login as a number, the password as sent. */
  function Normalize(data: map<string, Json>, login: int): (s: Settings)
    ensures s.mt5Login == login && s.mt5Password == PyStr(Get(data, "mt5_password"))
  {
    Settings(RStripChar(TextField(data, "api_base_url"), '/'), TextField(data, "sync_token"),
             TextField(data, "trading_account_id"), login, PyStr(Get(data, "mt5_password")),
             TextField(data, "mt5_server"), Strip(PyStr(Or(Get(data, "mt5_path"), JStr("")))))
  }

  /** The JSON object `save_config` writes for the settings. */
  function SettingsJson(s: Settings): (c: map<string, Json>)
    ensures c.Keys == ConfigKeys
    ensures Get(c, "api_base_url") == JStr(s.apiBaseUrl) && Get(c, "sync_token") == JStr(s.syncToken)
    ensures Get(c, "trading_account_id") == JStr(s.tradingAccountId) && Get(c, "mt5_login") == JNum(s.mt5Login)
    ensures Get(c, "mt5_password") == JStr(s.mt5Password) && Get(c, "mt5_server") == JStr(s.mt5Server)
    ensures Get(c, "mt5_path") == JStr(s.mt5Path)
  {
    map["api_base_url" := JStr(s.apiBaseUrl), "sync_token" := JStr(s.syncToken),
        "trading_account_id" := JStr(s.tradingAccountId), "mt5_login" := JNum(s.mt5Login),
        "mt5_password" := JStr(s.mt5Password), "mt5_server" := JStr(s.mt5Server), "mt5_path" := JStr(s.mt5Path)]
  }

  /** The config `_handle_config` saves. */
  function NormalizeConfig(data: map<string, Json>, login: int): map<string, Json> {
    SettingsJson(Normalize(data, login))
  }

  /**
   * The normalised fields are clean: the text fields are the sent values
   * trimmed, the base URL is the trimmed value without its trailing '/',
   * and none of them has spaces at either end.
   */
  lemma NormalizeIsClean(data: map<string, Json>, login: int)
    ensures var s := Normalize(data, login);
      && s.syncToken == TextField(data, "sync_token") && s.tradingAccountId == TextField(data, "trading_account_id")
      && s.mt5Server == TextField(data, "mt5_server")
      && Strip(s.syncToken) == s.syncToken && Strip(s.tradingAccountId) == s.tradingAccountId
      && Strip(s.mt5Server) == s.mt5Server && Strip(s.mt5Path) == s.mt5Path
      && s.apiBaseUrl <= TextField(data, "api_base_url")
      && (s.apiBaseUrl == [] || s.apiBaseUrl[|s.apiBaseUrl| - 1] != '/')
  {
    StripIdempotent(PyStr(Get(data, "sync_token")));
    StripIdempotent(PyStr(Get(data, "trading_account_id")));
    StripIdempotent(PyStr(Get(data, "mt5_server")));
    StripIdempotent(PyStr(Or(Get(data, "mt5_path"), JStr(""))));
  }

  /**
   * The sync run accepts what the server saved as far as the login goes:
   * the login reads back as the number given, and `_validate_config`
   * neither raises on the saved config nor rejects its login.
   */
  lemma SavedConfigValidates(s: Settings)
    ensures PyInt(Or(Get(SettingsJson(s), "mt5_login"), JNum(0))) == Some(s.mt5Login)
    ensures ValidateConfig(SettingsJson(s)) != Raises && ValidateConfig(SettingsJson(s)) != Exit(LoginNotNumberMessage)
  {
    ValidatesTextAndNumber(SettingsJson(s));
  }

  /** A sync run on a config the server saved never raises while building its posts: the base URL and the token are strings. */
  lemma SavedConfigPosts(s: Settings)
    ensures PostBuilds(SettingsJson(s))
  {
    assert Get(SettingsJson(s), "api_base_url") == JStr(s.apiBaseUrl);
    assert Get(SettingsJson(s), "sync_token") == JStr(s.syncToken);
  }

  /** `_validate_config` neither raises nor rejects the login when the five text fields are strings and the login a number. */
  lemma ValidatesTextAndNumber(c: map<string, Json>)
    requires Get(c, "api_base_url").JStr? && Get(c, "sync_token").JStr? && Get(c, "trading_account_id").JStr?
    requires Get(c, "mt5_password").JStr? && Get(c, "mt5_server").JStr? && Get(c, "mt5_login").JNum?
    ensures ValidateConfig(c) != Raises && ValidateConfig(c) != Exit(LoginNotNumberMessage)
  {
  }

  /** A config accepted by `_handle_config`: nothing required is missing and the login is an integer. */
  function AcceptConfig(data: map<string, Json>): (r: Result<map<string, Json>, string>)
    ensures r.Ok? <==> MissingKeys(RequiredKeys, data) == [] && PyInt(Get(data, "mt5_login")).Some?
    ensures r.Ok? ==> r.value == NormalizeConfig(data, PyInt(Get(data, "mt5_login")).value)
    ensures MissingKeys(RequiredKeys, data) != [] ==> r == Err("Missing: " + Join(MissingKeys(RequiredKeys, data), ", "))
    ensures MissingKeys(RequiredKeys, data) == [] && PyInt(Get(data, "mt5_login")).None? ==> r == Err("mt5_login must be a number")
  {
    var missing := MissingKeys(RequiredKeys, data);
    if missing != [] then Err("Missing: " + Join(missing, ", "))
    else match PyInt(Get(data, "mt5_login"))
      case None => Err("mt5_login must be a number")
      case Some(login) => Ok(NormalizeConfig(data, login))
  }

  /** Every required key of an accepted config was present and truthy in the body. */
  lemma AcceptedHasAllKeys(data: map<string, Json>)
    requires AcceptConfig(data).Ok?
    ensures forall k :: k in RequiredKeys ==> k in data && Truthy(data[k])
  {
    forall k | k in RequiredKeys ensures k in data && Truthy(data[k]) {
      assert k !in MissingKeys(RequiredKeys, data);
    }
  }

  /**
   * What `_handle_config` (bridge/config_server.py:87-106) makes of a
   * request: `Ok(config)` when it saves `config` and answers 200, else the
   * response it gives with nothing saved. `contentLength` is the
   * Content-Length header, if sent; one that is not an integer makes
   * `int()` raise, as does a body that is JSON but not an object.
   */
  function ConfigOutcome(contentLength: Option<string>, payload: Payload): (o: Result<map<string, Json>, Response>)
    ensures contentLength.Some? && PyIntText(contentLength.value).None? ==> o == Err(Aborted)
    ensures var n := if contentLength.Some? then PyIntText(contentLength.value) else Some(0);
      && (n == Some(0) ==> o == Err(Respond(400, ErrorBody("Empty body"))))
      && (n.Some? && n != Some(0) ==>
            match payload
            case Undecodable(e) => o == Err(Respond(400, ErrorBody(e)))
            case NotAnObject => o == Err(Aborted)
            case Object(data) =>
              match AcceptConfig(data)
              case Err(e) => o == Err(Respond(400, ErrorBody(e)))
              case Ok(c) => o == Ok(c))
    ensures o.Ok? <==> payload.Object? && AcceptConfig(payload.data).Ok? && contentLength.Some?
                       && PyIntText(contentLength.value).Some? && PyIntText(contentLength.value) != Some(0)
    ensures o.Err? ==> o.error != Respond(200, ConfigSaved) && !o.error.NoBody?
  {
    var n: Option<int> := if contentLength.Some? then PyIntText(contentLength.value) else Some(0);
    if n.None? then Err(Aborted)
    else if n.value == 0 then Err(Respond(400, ErrorBody("Empty body")))
    else match payload
      case Undecodable(e) => Err(Respond(400, ErrorBody(e)))
      case NotAnObject => Err(Aborted)
      case Object(data) =>
        match AcceptConfig(data)
        case Err(e) => Err(Respond(400, ErrorBody(e)))
        case Ok(c) => Ok(c)
  }

  /** The answer `_handle_sync_request` gives for what `run_sync` returned; an exception leaves no answer. */
  function SyncResponse(outcome: RunOutcome): (r: Response)
    ensures outcome.Raised? <==> r == Aborted
    ensures outcome.Done? && outcome.success ==> r == Respond(200, SyncOk(outcome.message, outcome.count))
    ensures outcome.Done? && !outcome.success ==> r == Respond(500, SyncFailed(outcome.message))
  {
    match outcome
    case Raised => Aborted
    case Done(success, message, count) =>
      if success then Respond(200, SyncOk(message, count)) else Respond(500, SyncFailed(message))
  }

  /** The two messages queued once a config is saved. */
  function ConfigReceived(texts: Table, lang: Json): seq<Message> {
    [Log(GetTextIn(texts, "log_config_from_browser", lang)), Log(GetTextIn(texts, "log_config_saved", lang))]
  }

  /** The three messages queued before the runner starts. */
  function SyncStarted(texts: Table, lang: Json): seq<Message> {
    [Status(GetTextIn(texts, "status_syncing", lang), false),
     Log(GetTextIn(texts, "log_sync_requested", lang)),
     Log(GetTextIn(texts, "status_syncing", lang))]
  }

  /** The two messages queued once the runner has answered. */
  function SyncFinished(texts: Table, lang: Json, outcome: RunOutcome): (m: seq<Message>)
    ensures outcome.Raised? <==> m == []
    ensures outcome.Done? ==> |m| == 2 && m[0].Status? && (m[0].isError <==> !outcome.success)
  {
    match outcome
    case Raised => []
    case Done(success, message, count) =>
      if success then
        [Status(GetTextIn(texts, "status_connected", lang), false),
         if count != 0 then Log(GetTextIn(texts, "log_deals_sent", lang))
         else Log(GetTextIn(texts, "log_sync_done", lang) + " " + message)]
      else
        [Status(GetTextIn(texts, "status_mt5_error", lang), true),
         Log(GetTextIn(texts, "log_error", lang) + " " + message)]
  }

  // ---------------------------------------------------------------- the server

  class BridgeServer {
    /** The message table the server speaks. */
    const texts: Table
    const state: StateStore
    const config: ConfigStore
    const terminal: Terminal
    /** `BridgeHandler.sync_runner` is `run_sync` (GUI mode) rather than `None` (console mode). */
    const runnerSet: bool
    /** `BridgeHandler.msg_queue` is set. */
    const queueSet: bool
    /** `BridgeHandler.on_config_received` is set. */
    const callbackSet: bool
    /** What the handlers have put on the queue. */
    var messages: seq<Message>
    /** How many times `on_config_received` has been called. */
    var configNotices: nat

    /** The server as `run_bridge_server_forever` sets it up; the bridge passes `Texts` as the table. */
    constructor (texts: Table, state: StateStore, config: ConfigStore, terminal: Terminal, runnerSet: bool, queueSet: bool, callbackSet: bool)
      ensures this.texts == texts && this.state == state && this.config == config && this.terminal == terminal
      ensures this.runnerSet == runnerSet && this.queueSet == queueSet && this.callbackSet == callbackSet
      ensures messages == [] && configNotices == 0
    {
      this.texts := texts;
      this.state, this.config, this.terminal := state, config, terminal;
      this.runnerSet, this.queueSet, this.callbackSet := runnerSet, queueSet, callbackSet;
      messages, configNotices := [], 0;
    }

    /** `_log` and `_status`: queue the message only when there is a queue. */
    method Push(m: Message)
      modifies this
      ensures messages == old(messages) + (if queueSet then [m] else [])
      ensures configNotices == old(configNotices)
    {
      if queueSet {
        messages := messages + [m];
      }
    }

    /**
     * `_handle_config` (bridge/config_server.py:87-123): save an accepted
     * config, answer, then log in the saved language and call
     * `on_config_received`; on every other path nothing changes.
     */
    method HandleConfig(contentLength: Option<string>, payload: Payload) returns (r: Response)
      modifies this, config
      ensures var o := ConfigOutcome(contentLength, payload);
        && (o.Err? ==> r == o.error && config.file == old(config.file)
                       && messages == old(messages) && configNotices == old(configNotices))
        && (o.Ok? ==>
              && r == Respond(200, ConfigSaved) && config.file == ConfigStored(o.value)
              && configNotices == old(configNotices) + (if callbackSet then 1 else 0)
              && messages == old(messages) + (if queueSet then ConfigReceived(texts, LanguageOf(LoadState(state.file))) else []))
    {
      var o := ConfigOutcome(contentLength, payload);
      if o.Err? {
        return o.error;
      }
      r := SaveReceived(o.value);
    }

    /** The success path of `_handle_config`: save, answer 200, log in the saved language, call `on_config_received`. */
    method SaveReceived(c: map<string, Json>) returns (r: Response)
      modifies this, config
      ensures r == Respond(200, ConfigSaved) && config.file == ConfigStored(c)
      ensures configNotices == old(configNotices) + (if callbackSet then 1 else 0)
      ensures messages == old(messages) + (if queueSet then ConfigReceived(texts, LanguageOf(LoadState(state.file))) else [])
    {
      config.SaveConfig(c);
      r := Respond(200, ConfigSaved);
      var lang := state.GetLanguage();
      var received := Log(GetTextIn(texts, "log_config_from_browser", lang));
      var saved := Log(GetTextIn(texts, "log_config_saved", lang));
      ghost var before := messages;
      Push(received);
      Push(saved);
      assert messages == before + (if queueSet then [received, saved] else []);
      if callbackSet {
        configNotices := configNotices + 1;
      }
    }

    /** The end of `_handle_sync_request`: answer for the runner's outcome and queue the closing messages. */
    method Report(outcome: RunOutcome, lang: Json) returns (r: Response)
      modifies this
      ensures r == SyncResponse(outcome)
      ensures messages == old(messages) + (if queueSet then SyncFinished(texts, lang, outcome) else [])
      ensures configNotices == old(configNotices)
    {
      r := SyncResponse(outcome);
      match outcome {
        case Raised =>
        case Done(success, message, synced) =>
          if success {
            Push(Status(GetTextIn(texts, "status_connected", lang), false));
            if synced != 0 {
              Push(Log(GetTextIn(texts, "log_deals_sent", lang)));
            } else {
              Push(Log(GetTextIn(texts, "log_sync_done", lang) + " " + message));
            }
          } else {
            Push(Status(GetTextIn(texts, "status_mt5_error", lang), true));
            Push(Log(GetTextIn(texts, "log_error", lang) + " " + message));
          }
      }
    }

    /**
     * `_handle_sync_request` (bridge/config_server.py:125-149) with
     * `run_sync` as the runner; the remaining parameters are the terminal's
     * and the backend's answers that `RunSync` takes. With a config, the
     * answer and the closing messages follow the outcome `ran` of the run.
     */
    method HandleSyncRequest(initOk: bool, loginOk: bool, lastError: string,
                             clock0: int, clock1: int, history: HistoryOracle, postOk: bool)
      returns (r: Response, ghost ran: RunOutcome)
      modifies this, state, terminal
      ensures !runnerSet ==>
        r == Respond(500, ErrorBody("Sync runner not set")) && unchanged(state) && unchanged(terminal) && messages == old(messages)
      ensures runnerSet && config.file.NoConfig? ==>
        r == Respond(400, ErrorBody("No config. Connect from browser first.")) && unchanged(state) && unchanged(terminal) && messages == old(messages)
      ensures runnerSet && config.file.CorruptConfig? ==>
        r == Aborted && unchanged(state) && unchanged(terminal) && messages == old(messages)
      ensures runnerSet && config.file.ConfigStored? ==>
        var lang := LanguageOf(LoadState(old(state.file)));
        && r == SyncResponse(ran)
        && RunSyncResult(texts, config.file.data, old(state.file), state.file, terminal.available,
                         initOk, loginOk, lastError, clock0, clock1, history, postOk, ran)
        && RunSyncSession(config.file.data, terminal.available, initOk,
                          old(terminal.initialized), old(terminal.shutdowns), terminal.initialized, terminal.shutdowns)
        && messages == old(messages) + (if queueSet then SyncStarted(texts, lang) + SyncFinished(texts, lang, ran) else [])
      ensures configNotices == old(configNotices)
    {
      ran := Raised;
      if !runnerSet {
        return Respond(500, ErrorBody("Sync runner not set")), ran;
      }
      var loaded := config.LoadConfig();
      match loaded {
        case NotFound =>
          return Respond(400, ErrorBody("No config. Connect from browser first.")), ran;
        case DecodeError =>
          return Aborted, ran;
        case Loaded(cfg) =>
          r, ran := SyncConfigured(cfg, initOk, loginOk, lastError, clock0, clock1, history, postOk);
      }
    }

    /** `_handle_sync_request` once the config is loaded: announce the sync, run it, report. */
    method SyncConfigured(cfg: map<string, Json>, initOk: bool, loginOk: bool, lastError: string,
                          clock0: int, clock1: int, history: HistoryOracle, postOk: bool)
      returns (r: Response, ghost ran: RunOutcome)
      modifies this, state, terminal
      ensures var lang := LanguageOf(LoadState(old(state.file)));
        && r == SyncResponse(ran)
        && messages == old(messages) + (if queueSet then SyncStarted(texts, lang) + SyncFinished(texts, lang, ran) else [])
      ensures RunSyncResult(texts, cfg, old(state.file), state.file, terminal.available,
                            initOk, loginOk, lastError, clock0, clock1, history, postOk, ran)
      ensures RunSyncSession(cfg, terminal.available, initOk,
                             old(terminal.initialized), old(terminal.shutdowns), terminal.initialized, terminal.shutdowns)
      ensures configNotices == old(configNotices)
    {
      var lang := state.GetLanguage();
      var syncing := Status(GetTextIn(texts, "status_syncing", lang), false);
      var requested := Log(GetTextIn(texts, "log_sync_requested", lang));
      var logged := Log(GetTextIn(texts, "status_syncing", lang));
      ghost var before := messages;
      Push(syncing);
      Push(requested);
      Push(logged);
      assert messages == before + (if queueSet then [syncing, requested, logged] else []);
      var outcome := RunSync(texts, cfg, state, terminal, initOk, loginOk, lastError, clock0, clock1, history, postOk);
      ran := outcome;
      r := Report(outcome, lang);
    }

    /** The status page of `do_GET`: whether a config exists, in the saved language. */
    method HandleStatus() returns (r: Response)
      ensures config.file.CorruptConfig? ==> r == Aborted
      ensures !config.file.CorruptConfig? ==>
        var lang := LanguageOf(LoadState(state.file));
        var connected := config.file.ConfigStored?;
        r == Respond(200, StatusBody(
          GetTextIn(texts, "api_description", lang),
          GetTextIn(texts, "api_config_endpoint", lang),
          GetTextIn(texts, "api_sync_endpoint", lang),
          connected,
          GetTextIn(texts, if connected then "api_status_connected" else "api_status_not_connected", lang)))
    {
      var loaded := config.LoadConfig();
      if loaded.DecodeError? {
        return Aborted;
      }
      var connected := loaded.Loaded?;
      var lang := state.GetLanguage();
      var status := if connected then GetTextIn(texts, "api_status_connected", lang) else GetTextIn(texts, "api_status_not_connected", lang);
      r := Respond(200, StatusBody(
        GetTextIn(texts, "api_description", lang),
        GetTextIn(texts, "api_config_endpoint", lang),
        GetTextIn(texts, "api_sync_endpoint", lang),
        connected, status));
    }

    /**
     * One request: route it and run its handler. `OPTIONS` answers 204 and
     * unknown paths 404, both without a body; every other route answers as
     * its handler does, and `ran` is the outcome of a sync request's run.
     */
    method Handle(verb: Verb, path: string, contentLength: Option<string>, payload: Payload,
                  initOk: bool, loginOk: bool, lastError: string,
                  clock0: int, clock1: int, history: HistoryOracle, postOk: bool)
      returns (r: Response, ghost ran: RunOutcome)
      modifies this, state, terminal, config
      ensures RouteOf(verb, path) == Preflight ==> r == NoBody(204) && unchanged(this) && unchanged(state) && unchanged(config)
      ensures RouteOf(verb, path) == UnknownPath ==> r == NoBody(404) && unchanged(this) && unchanged(state) && unchanged(config)
      ensures RouteOf(verb, path) != ConfigUpload ==> config.file == old(config.file)
      ensures RouteOf(verb, path) != SyncRequest ==> unchanged(terminal) && state.file == old(state.file)
      ensures RouteOf(verb, path) == StatusPage ==>
        && messages == old(messages)
        && (old(config.file).CorruptConfig? ==> r == Aborted)
        && (!old(config.file).CorruptConfig? ==>
              var lang := LanguageOf(LoadState(old(state.file)));
              var connected := old(config.file).ConfigStored?;
              r == Respond(200, StatusBody(
                GetTextIn(texts, "api_description", lang),
                GetTextIn(texts, "api_config_endpoint", lang),
                GetTextIn(texts, "api_sync_endpoint", lang),
                connected,
                GetTextIn(texts, if connected then "api_status_connected" else "api_status_not_connected", lang))))
      ensures RouteOf(verb, path) == ConfigUpload ==>
        var o := ConfigOutcome(contentLength, payload);
        && (o.Err? ==> r == o.error && config.file == old(config.file) && messages == old(messages))
        && (o.Ok? ==> r == Respond(200, ConfigSaved) && config.file == ConfigStored(o.value))
      ensures RouteOf(verb, path) == SyncRequest ==>
        && (!runnerSet ==> r == Respond(500, ErrorBody("Sync runner not set")) && state.file == old(state.file) && unchanged(terminal))
        && (runnerSet && old(config.file).NoConfig? ==>
              r == Respond(400, ErrorBody("No config. Connect from browser first.")) && state.file == old(state.file) && unchanged(terminal))
        && (runnerSet && old(config.file).CorruptConfig? ==> r == Aborted && state.file == old(state.file) && unchanged(terminal))
        && (runnerSet && old(config.file).ConfigStored? ==>
              && r == SyncResponse(ran)
              && RunSyncResult(texts, old(config.file).data, old(state.file), state.file, terminal.available,
                               initOk, loginOk, lastError, clock0, clock1, history, postOk, ran))
    {
      ran := Raised;
      match RouteOf(verb, path) {
        case Preflight => r := NoBody(204);
        case UnknownPath => r := NoBody(404);
        case StatusPage => r := HandleStatus();
        case SyncRequest => r, ran := HandleSyncRequest(initOk, loginOk, lastError, clock0, clock1, history, postOk);
        case ConfigUpload => r := HandleConfig(contentLength, payload);
      }
    }
  }
}
