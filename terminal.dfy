/**
 * The MetaTrader5 Python library, which drives the terminal process on the
 * same machine, as an abstract oracle: whether `initialize` and `login`
 * succeed, the text of `last_error()` and the deals `history_deals_get`
 * returns are inputs of each call. What the model keeps is the library's
 * own process-wide state: whether a session is initialised and how many
 * times `shutdown` has been called.
 *
 * The second half models the bridge's thin wrappers around the library
 * (bridge/mt5_sync.py): `connect`, `disconnect` and `get_deals`.
 */
module Terminal {
  import opened Common
  import opened Text
  import opened PyValue
  import opened Deals

  class Terminal {
    /** Whether `import MetaTrader5` succeeded (the library exists only on Windows). */
    const available: bool
    /** A session opened by `initialize` and not yet closed by `shutdown`. */
    var initialized: bool
    /** Number of `shutdown` calls so far. */
    var shutdowns: nat
    /** The terminal path handed to the last successful `initialize`, if any. */
    var initPath: Option<string>

    constructor (available: bool)
      ensures this.available == available
      ensures !initialized && shutdowns == 0 && initPath == None
    {
      this.available := available;
      initialized, shutdowns, initPath := false, 0, None;
    }

    /** `mt5.initialize(path=...)`; `ok` is the terminal's answer. A failed call leaves no session. */
    method Initialize(path: Option<string>, ok: bool) returns (r: bool)
      requires available
      modifies this
      ensures r == ok && initialized == ok && shutdowns == old(shutdowns)
      ensures initPath == if ok then path else old(initPath)
    {
      initialized := ok;
      if ok { initPath := path; }
      r := ok;
    }

    /** `mt5.shutdown()`. */
    method Shutdown()
      requires available
      modifies this
      ensures !initialized && shutdowns == old(shutdowns) + 1 && initPath == old(initPath)
    {
      initialized := false;
      shutdowns := shutdowns + 1;
    }
  }

  // ---------------------------------------------------------------- bridge/mt5_sync.py

  const NotInstalledMessage := "MetaTrader5 is not installed (Windows only)."

  /** The terminal path `connect` passes to `initialize`: `str(p).strip()` when `p` is truthy and not blank. */
  function InitPath(mt5Path: Json): (r: Option<string>)
    ensures r.Some? ==> r.value != [] && Strip(r.value) == r.value
    ensures !Truthy(mt5Path) ==> r == None
  {
    if Truthy(mt5Path) && Strip(PyStr(mt5Path)) != [] then
      StripIdempotent(PyStr(mt5Path));
      Some(Strip(PyStr(mt5Path)))
    else None
  }

  /**
   * `connect(login, password, server, mt5_path)`: initialise, log in, and on
   * a failed login shut the library down again before reporting the error.
   * Credentials go to the terminal's `login`, whose answer is `loginOk`.
   */
  method BridgeConnect(t: Terminal, mt5Path: Json, initOk: bool, loginOk: bool, lastError: string)
    returns (ok: bool, err: Option<string>)
    modifies t
    ensures ok <==> t.available && initOk && loginOk
    ensures ok ==> err == None && t.initialized && t.shutdowns == old(t.shutdowns) && t.initPath == InitPath(mt5Path)
    ensures !t.available ==> err == Some(NotInstalledMessage) && unchanged(t)
    ensures t.available && !initOk ==>
      err == Some("MT5 init failed: " + lastError) && !t.initialized && t.shutdowns == old(t.shutdowns)
    ensures t.available && initOk && !loginOk ==>
      err == Some("MT5 login failed: " + lastError) && !t.initialized && t.shutdowns == old(t.shutdowns) + 1
  {
    if !t.available {
      return false, Some(NotInstalledMessage);
    }
    var initialised := t.Initialize(InitPath(mt5Path), initOk);
    if !initialised {
      return false, Some("MT5 init failed: " + lastError);
    }
    if !loginOk {
      err := Some("MT5 login failed: " + lastError);
      t.Shutdown();
      return false, err;
    }
    return true, None;
  }

  /** `disconnect()`: shut the library down whenever it is installed, connected or not. */
  method BridgeDisconnect(t: Terminal)
    modifies t
    ensures t.available ==> !t.initialized && t.shutdowns == old(t.shutdowns) + 1 && t.initPath == old(t.initPath)
    ensures !t.available ==> unchanged(t)
  {
    if t.available {
      t.Shutdown();
    }
  }

  /** `get_deals(from, to)`: the terminal's deals in the window, `[]` when it returns `None` or the library is missing. */
  method BridgeGetDeals(t: Terminal, from: int, to: int, history: HistoryOracle) returns (deals: seq<RawDeal>)
    ensures !t.available ==> deals == []
    ensures t.available && history(from, to).None? ==> deals == []
    ensures t.available && history(from, to).Some? ==> deals == history(from, to).value
  {
    if !t.available {
      return [];
    }
    var fetched := history(from, to);
    if fetched.None? {
      return [];
    }
    return fetched.value;
  }
}
