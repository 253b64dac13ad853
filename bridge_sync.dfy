/**
 * The bridge's sync run (bridge/main.py): check the configuration, connect
 * to the terminal, fetch the deals since the watermark, hand them to the
 * backend, and move the watermark only when that worked or there was
 * nothing to send.
 *
 * Times are whole epoch seconds; the stored watermark is the decimal text
 * of such a number. Posting the deals to the backend is the boolean
 * `postOk`; the acknowledgement `post_bridge_sync_done` is ignored by the
 * source and so is not an input.
 */
module BridgeSync {
  import opened Common
  import opened Text
  import opened PyValue
  import opened Deals
  import opened Terminal
  import opened I18n
  import opened BridgeConfig
  import Backend

  // ---------------------------------------------------------------- configuration

  /** `(v or "").strip()`; `None` where `.strip()` meets a value that is not a string and raises. */
  function StrippedOrEmpty(v: Json): (r: Option<string>)
    ensures !Truthy(v) ==> r == Some("")
    ensures v.JStr? ==> r == Some(Strip(v.s))
    ensures Truthy(v) && !v.JStr? ==> r == None
  {
    if !Truthy(v) then Some("") else if v.JStr? then Some(Strip(v.s)) else None
  }

  /** The two headers every request to the backend carries. */
  datatype Headers = Headers(authorization: string, contentType: string)

  /** `get_headers(cfg)`: a bearer header with the stripped token, empty when there is none. */
  function GetHeaders(cfg: map<string, Json>): (r: Option<Headers>)
    ensures r.Some? <==> StrippedOrEmpty(Get(cfg, "sync_token")).Some?
    ensures r.Some? ==> StartsWith(r.value.authorization, Backend.BearerPrefix) && r.value.contentType == "application/json"
  {
    match StrippedOrEmpty(Get(cfg, "sync_token"))
    case None => None
    case Some(token) => Some(Headers("Bearer " + token, "application/json"))
  }

  /**
   * The backend reads back exactly the configured token from the bridge's
   * header, provided the token does not itself contain "Bearer ".
   */
  lemma HeaderCarriesToken(cfg: map<string, Json>, token: string)
    requires Get(cfg, "sync_token") == JStr(token) && !Contains(Strip(token), Backend.BearerPrefix)
    ensures GetHeaders(cfg).Some?
    ensures Backend.GetAuthorizationToken(GetHeaders(cfg).value.authorization) == Backend.Answer(Strip(token))
  {
    Backend.BearerRoundTrip(Strip(token));
  }

  /** What `_validate_config` does: return, exit with a message, or raise. */
  datatype Validation = Passed | Exit(message: string) | Raises

  const MissingApiMessage := "Missing config: api_base_url, sync_token, trading_account_id"
  const MissingMt5Message := "Missing config: mt5_password, mt5_server"
  const LoginNotNumberMessage := "mt5_login must be a number"

  /** `_validate_config(cfg)` (bridge/main.py:55-72). */
  function ValidateConfig(cfg: map<string, Json>): (r: Validation)
    ensures r == Passed <==>
      && StrippedOrEmpty(Get(cfg, "api_base_url")).Some? && StrippedOrEmpty(Get(cfg, "api_base_url")).value != []
      && StrippedOrEmpty(Get(cfg, "sync_token")).Some? && StrippedOrEmpty(Get(cfg, "sync_token")).value != []
      && StrippedOrEmpty(Get(cfg, "trading_account_id")).Some? && StrippedOrEmpty(Get(cfg, "trading_account_id")).value != []
      && StrippedOrEmpty(Get(cfg, "mt5_password")).Some? && StrippedOrEmpty(Get(cfg, "mt5_password")).value != []
      && StrippedOrEmpty(Get(cfg, "mt5_server")).Some? && StrippedOrEmpty(Get(cfg, "mt5_server")).value != []
      && PyInt(Get(cfg, "mt5_login")).Some?
    ensures r.Exit? ==> r.message in {MissingApiMessage, MissingMt5Message, LoginNotNumberMessage}
  {
    var api := StrippedOrEmpty(Get(cfg, "api_base_url"));
    var token := StrippedOrEmpty(Get(cfg, "sync_token"));
    var account := StrippedOrEmpty(Get(cfg, "trading_account_id"));
    var password := StrippedOrEmpty(Get(cfg, "mt5_password"));
    var server := StrippedOrEmpty(Get(cfg, "mt5_server"));
    if api.None? || token.None? || account.None? || password.None? || server.None? then Raises
    else if api.value == [] || token.value == [] || account.value == [] then Exit(MissingApiMessage)
    else if password.value == [] || server.value == [] then Exit(MissingMt5Message)
    else if PyInt(Get(cfg, "mt5_login")).None? then Exit(LoginNotNumberMessage)
    else Passed
  }

  // ---------------------------------------------------------------- the window

  const DaySeconds := 86400
  const LookbackDays := 30

  datatype Window = Window(from: int, to: int)

  /**
   * The fetch window (bridge/main.py:136-141): from the stored watermark
   * when there is one, else thirty days before the first clock reading, to
   * the second reading. `None` where parsing the stored value raises.
   */
  function SyncWindow(last: Json, clock0: int, clock1: int): (w: Option<Window>)
    ensures w.Some? ==> w.value.to == clock1
    ensures !Truthy(last) ==> w == Some(Window(clock0 - LookbackDays * DaySeconds, clock1))
    ensures Truthy(last) && !last.JStr? ==> w == None
  {
    if !Truthy(last) then Some(Window(clock0 - LookbackDays * DaySeconds, clock1))
    else if !last.JStr? then None
    else match PyIntText(last.s)
      case None => None
      case Some(from) => Some(Window(from, clock1))
  }

  /** The text the bridge saves as its watermark. */
  function WatermarkText(to: int): string {
    IntToString(to)
  }

  /** The next run's window starts where the saved watermark says: at the end of the window that saved it. */
  lemma NextWindowStartsAtWatermark(f: StateFile, to: int, clock0: int, clock1: int)
    ensures var g := Stored(LoadState(f)[LastSyncKey := JStr(WatermarkText(to))]);
      SyncWindow(Get(LoadState(g), LastSyncKey), clock0, clock1) == Some(Window(to, clock1))
  {
    IntToStringRoundTrip(to);
  }

  // ---------------------------------------------------------------- messages

  /** The terminal errors for which the bridge appends its hint about automated trading and the investor password. */
  predicate NeedsHint(err: string) {
    Contains(err, "-6") || Contains(err, "Authorization failed")
  }

  /** `get_text("msg_mt5_connect_failed", lang).format(err)` plus the hint where it applies. */
  function ConnectFailedMessage(texts: Table, lang: Json, err: string): string {
    FormatOne(GetTextIn(texts, "msg_mt5_connect_failed", lang), err)
      + (if NeedsHint(err) then GetTextIn(texts, "msg_mt5_hint", lang) else "")
  }

  /**
   * With a template "a{}b" the connect failure reads a, the error, b, and
   * then the hint exactly when the error calls for it.
   */
  lemma ConnectFailedMessageForm(texts: Table, lang: Json, err: string, a: string, b: string)
    requires GetTextIn(texts, "msg_mt5_connect_failed", lang) == a + "{}" + b && '{' !in a
    ensures NeedsHint(err) ==> ConnectFailedMessage(texts, lang, err) == a + err + b + GetTextIn(texts, "msg_mt5_hint", lang)
    ensures !NeedsHint(err) ==> ConnectFailedMessage(texts, lang, err) == a + err + b
  {
    FormatOneAt(a, b, err);
  }

  /** What `mt5_sync.connect` reports on failure. */
  function BridgeConnectError(available: bool, initOk: bool, lastError: string): string {
    if !available then NotInstalledMessage
    else if !initOk then "MT5 init failed: " + lastError
    else "MT5 login failed: " + lastError
  }

  // ---------------------------------------------------------------- the posts to the backend

  /**
   * `(cfg.get("api_base_url") or "").rstrip("/")`, which `post_sync_deals`
   * and `post_bridge_sync_done` compute before their `try`; `None` where
   * `.rstrip` meets a value that is not a string and raises.
   */
  function BaseUrl(cfg: map<string, Json>): (r: Option<string>)
    ensures !Truthy(Get(cfg, "api_base_url")) ==> r == Some("")
    ensures Get(cfg, "api_base_url").JStr? ==> r == Some(RStripChar(Get(cfg, "api_base_url").s, '/'))
    ensures Truthy(Get(cfg, "api_base_url")) && !Get(cfg, "api_base_url").JStr? ==> r == None
  {
    var v := Get(cfg, "api_base_url");
    if !Truthy(v) then Some("") else if v.JStr? then Some(RStripChar(v.s, '/')) else None
  }

  /**
   * Whether the two posts get as far as sending: the base URL is computed
   * before the `try`, and the headers inside it under an `except` for
   * network errors only, so a value that `.rstrip` or `.strip` cannot take
   * raises out of `run_sync` (bridge/main.py:29-31, 84-117).
   */
  predicate PostBuilds(cfg: map<string, Json>) {
    BaseUrl(cfg).Some? && GetHeaders(cfg).Some?
  }

  /** A config that passes `_validate_config` always gets its posts sent. */
  lemma ValidatedConfigPosts(cfg: map<string, Json>)
    requires ValidateConfig(cfg) == Passed
    ensures PostBuilds(cfg)
  {
    assert StrippedOrEmpty(Get(cfg, "api_base_url")).Some?;
    assert StrippedOrEmpty(Get(cfg, "sync_token")).Some?;
  }

  // ---------------------------------------------------------------- run_sync

  /** `(success, message, synced_count)`, or an exception that escapes `run_sync`. */
  datatype RunOutcome = Done(success: bool, message: string, count: nat) | Raised

  /**
   * What `run_sync(cfg)` (bridge/main.py:120-155) answers and leaves in
   * `state.json`, from the state file `before` to the state file `after`.
   * `available`, `initOk`, `loginOk` and `lastError` are the terminal's
   * answers, `clock0` and `clock1` the two clock readings, `history` the
   * terminal's deals and `postOk` whether the backend accepted them.
   *
   * A login that does not convert raises before anything happens; a
   * failed connect answers with the localised message. Once connected: a
   * watermark that does not parse raises; an empty fetch saves the window
   * end and answers "no new deals", but raises afterwards when the
   * acknowledgement cannot be built; deals whose post cannot be built
   * raise, and a refused post answers failure, both without saving; an
   * accepted post saves the window end and answers with the count.
   */
  ghost predicate RunSyncResult(texts: Table, cfg: map<string, Json>, before: StateFile, after: StateFile, available: bool,
                                initOk: bool, loginOk: bool, lastError: string,
                                clock0: int, clock1: int, history: HistoryOracle, postOk: bool, r: RunOutcome)
  {
    var lang := LanguageOf(LoadState(before));
    var login := PyInt(Or(Get(cfg, "mt5_login"), JNum(0)));
    var connected := login.Some? && available && initOk && loginOk;
    && (login.None? ==> r == Raised && after == before)
    && (login.Some? && !connected ==>
          r == Done(false, ConnectFailedMessage(texts, lang, BridgeConnectError(available, initOk, lastError)), 0) && after == before)
    && (connected ==>
          var w := SyncWindow(Get(LoadState(before), LastSyncKey), clock0, clock1);
          && (w.None? ==> r == Raised && after == before)
          && (w.Some? ==>
                var fetched := history(w.value.from, w.value.to);
                var deals := if fetched.Some? then fetched.value else [];
                var saved := Stored(LoadState(before)[LastSyncKey := JStr(WatermarkText(w.value.to))]);
                && (deals == [] ==>
                      after == saved && r == if PostBuilds(cfg) then Done(true, GetTextIn(texts, "msg_no_new_deals", lang), 0) else Raised)
                && (deals != [] && !PostBuilds(cfg) ==> r == Raised && after == before)
                && (deals != [] && PostBuilds(cfg) && !postOk ==>
                      r == Done(false, GetTextIn(texts, "msg_send_deals_failed", lang), 0) && after == before)
                && (deals != [] && PostBuilds(cfg) && postOk ==>
                      r == Done(true, FormatOne(GetTextIn(texts, "msg_synced_n_deals", lang), IntToString(|deals|)), |deals|)
                      && after == saved)))
  }

  /**
   * What `run_sync` does to the library's session: nothing when the login
   * does not convert or the library is missing; otherwise no session is
   * left open, and the library is shut down once when `initialize`
   * succeeded (by `connect` after a failed login, else by the `finally`).
   */
  ghost predicate RunSyncSession(cfg: map<string, Json>, available: bool, initOk: bool,
                                 initialized0: bool, shutdowns0: nat, initialized1: bool, shutdowns1: nat)
  {
    var login := PyInt(Or(Get(cfg, "mt5_login"), JNum(0)));
    && (login.None? || !available ==> initialized1 == initialized0 && shutdowns1 == shutdowns0)
    && (login.Some? && available ==> !initialized1 && shutdowns1 == shutdowns0 + (if initOk then 1 else 0))
  }

  /** `run_sync(cfg)`, speaking the message table `texts`; the other parameters are as for `RunSyncResult`. */
  method RunSync(texts: Table, cfg: map<string, Json>, store: StateStore, t: Terminal,
                 initOk: bool, loginOk: bool, lastError: string,
                 clock0: int, clock1: int, history: HistoryOracle, postOk: bool)
    returns (r: RunOutcome)
    modifies store, t
    ensures RunSyncResult(texts, cfg, old(store.file), store.file, t.available, initOk, loginOk, lastError, clock0, clock1, history, postOk, r)
    ensures RunSyncSession(cfg, t.available, initOk, old(t.initialized), old(t.shutdowns), t.initialized, t.shutdowns)
    ensures PyInt(Or(Get(cfg, "mt5_login"), JNum(0))).None? ==> unchanged(t)
  {
    var lang := store.GetLanguage();
    var login := PyInt(Or(Get(cfg, "mt5_login"), JNum(0)));
    if login.None? {
      return Raised;
    }
    var ok, err := BridgeConnect(t, Or(Get(cfg, "mt5_path"), JStr("")), initOk, loginOk, lastError);
    if !ok {
      return Done(false, ConnectFailedMessage(texts, lang, err.value), 0);
    }
    // the `try` block; every return below passes through the `finally` disconnect
    var last := store.LoadLastSync();
    var window := SyncWindow(last, clock0, clock1);
    if window.None? {
      BridgeDisconnect(t);
      return Raised;
    }
    var fromTime, toTime := window.value.from, window.value.to;
    var deals := BridgeGetDeals(t, fromTime, toTime, history);
    if deals == [] {
      store.SaveLastSync(WatermarkText(toTime));
      BridgeDisconnect(t);
      // `post_bridge_sync_done(cfg)`, whose answer is ignored
      if !PostBuilds(cfg) {
        return Raised;
      }
      return Done(true, GetTextIn(texts, "msg_no_new_deals", lang), 0);
    }
    // `post_sync_deals(cfg, deals)`
    if !PostBuilds(cfg) {
      BridgeDisconnect(t);
      return Raised;
    }
    if !postOk {
      BridgeDisconnect(t);
      return Done(false, GetTextIn(texts, "msg_send_deals_failed", lang), 0);
    }
    store.SaveLastSync(WatermarkText(toTime));
    BridgeDisconnect(t);
    return Done(true, FormatOne(GetTextIn(texts, "msg_synced_n_deals", lang), IntToString(|deals|)), |deals|);
  }
}
