/**
 * The backend's terminal session object (app/mt5_client.py): one `MT5Client`
 * per request, whose `connected`, `login` and `server` fields record the
 * session it opened on the process-wide MetaTrader5 library, and whose
 * queries answer nothing unless it is connected.
 */
module Mt5Client {
  import opened Common
  import opened Deals
  import opened Terminal

  /** The fields of `mt5.account_info()` the backend reads. */
  datatype AccountInfo = AccountInfo(login: int, server: string, balance: real, equity: real)

  class MT5Client {
    const terminal: Terminal
    var connected: bool
    var login: Option<int>
    var server: Option<string>

    /** A client that is not connected holds no login and no server. */
    ghost predicate Valid()
      reads this
    {
      !connected ==> login == None && server == None
    }

    /** `MT5Client()`; where the library is missing the source raises `RuntimeError` instead, so callers check first. */
    constructor (terminal: Terminal)
      requires terminal.available
      ensures Valid() && this.terminal == terminal
      ensures !connected && login == None && server == None
    {
      this.terminal := terminal;
      connected, login, server := false, None, None;
    }

    /**
     * `connect(login, password, server)` with the terminal path from the
     * settings. Success records the session; a failed `initialize` or
     * `login` leaves the client's fields as they were, and a failed login
     * shuts the library down first.
     */
    method Connect(login: int, server: string, settingsPath: Option<string>, initOk: bool, loginOk: bool, lastError: string)
      returns (ok: bool, err: Option<string>)
      requires Valid() && terminal.available
      modifies this, terminal
      ensures Valid()
      ensures ok <==> initOk && loginOk
      ensures ok ==> connected && this.login == Some(login) && this.server == Some(server) && err == None
      ensures ok ==> terminal.initialized && terminal.shutdowns == old(terminal.shutdowns) && terminal.initPath == settingsPath
      ensures !ok ==> connected == old(connected) && this.login == old(this.login) && this.server == old(this.server)
      ensures !ok ==> !terminal.initialized
      ensures !initOk ==> err == Some("MT5 initialization failed: " + lastError) && terminal.shutdowns == old(terminal.shutdowns)
      ensures initOk && !loginOk ==> err == Some("MT5 login failed: " + lastError) && terminal.shutdowns == old(terminal.shutdowns) + 1
    {
      var initialised := terminal.Initialize(settingsPath, initOk);
      if !initialised {
        return false, Some("MT5 initialization failed: " + lastError);
      }
      if !loginOk {
        err := Some("MT5 login failed: " + lastError);
        terminal.Shutdown();
        return false, err;
      }
      connected, this.login, this.server := true, Some(login), Some(server);
      return true, None;
    }

    /** `disconnect()`: close the session this client opened; a client that is not connected does nothing, so a second call is a no-op. */
    method Disconnect()
      requires Valid() && terminal.available
      modifies this, terminal
      ensures Valid()
      ensures !connected && login == None && server == None
      ensures old(connected) ==> !terminal.initialized && terminal.shutdowns == old(terminal.shutdowns) + 1
      ensures old(connected) ==> terminal.initPath == old(terminal.initPath)
      ensures !old(connected) ==> unchanged(this) && unchanged(terminal)
    {
      if connected {
        terminal.Shutdown();
        connected, login, server := false, None, None;
      }
    }

    /** `get_account_info()`: the terminal's answer `info`, or `None` when not connected. */
    method GetAccountInfo(info: Option<AccountInfo>) returns (r: Option<AccountInfo>)
      ensures !connected ==> r == None
      ensures connected ==> r == info
    {
      if !connected {
        return None;
      }
      return info;
    }

    /** `get_deals(from, to)`: `[]` when not connected or when the terminal answers `None`. */
    method GetDeals(from: int, to: int, history: HistoryOracle) returns (deals: seq<RawDeal>)
      ensures !connected ==> deals == []
      ensures connected && history(from, to).None? ==> deals == []
      ensures connected && history(from, to).Some? ==> deals == history(from, to).value
    {
      if !connected {
        return [];
      }
      var fetched := history(from, to);
      if fetched.None? {
        return [];
      }
      return fetched.value;
    }

    /** `is_connected()`: connected and the terminal still answers `terminal_info()`. */
    method IsConnected(terminalInfoPresent: bool) returns (r: bool)
      ensures r <==> connected && terminalInfoPresent
    {
      r := connected && terminalInfoPresent;
    }
  }
}
