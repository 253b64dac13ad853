/**
 * The backend's MT5 endpoints (app/routers/mt5.py): the bearer-token
 * header, the trading-account ownership check, the credential upsert of
 * `connect_mt5` and the `sync_trades` handler with its watermark.
 *
 * The database is the `Backend` object: the owners of the trading
 * accounts, the MT5 credential rows keyed by trading account, and the
 * `trades` table, whose terminal trade ids are the ledger.
 */
module Backend {
  import opened Common
  import opened Text
  import opened Deals
  import opened Terminal
  import opened Mt5Client
  import opened Reconciliation

  // ---------------------------------------------------------------- requests

  /** An HTTP answer: the handler's body, or an `HTTPException` with its status code and detail. */
  datatype Reply<+T> = Answer(body: T) | HttpError(code: int, detail: string)

  const BearerPrefix := "Bearer "

  lemma RemoveLeadingPattern(pat: string, t: string)
    requires pat != []
    ensures RemoveAll(pat + t, pat) == RemoveAll(t, pat)
  {
    assert (pat + t)[..|pat|] == pat;
    assert (pat + t)[|pat|..] == t;
  }

  /** `get_authorization_token`: the header must start with "Bearer "; every occurrence of "Bearer " is then removed. */
  function GetAuthorizationToken(header: string): (r: Reply<string>)
    ensures !StartsWith(header, BearerPrefix) <==> r == HttpError(401, "Invalid authorization header")
    ensures r.Answer? ==> |r.body| <= |header| - |BearerPrefix|
  {
    if !StartsWith(header, BearerPrefix) then HttpError(401, "Invalid authorization header")
    else
      assert header == BearerPrefix + header[|BearerPrefix|..];
      RemoveLeadingPattern(BearerPrefix, header[|BearerPrefix|..]);
      Answer(RemoveAll(header, BearerPrefix))
  }

  /** A token that does not itself contain "Bearer " comes back unchanged from its header. */
  lemma BearerRoundTrip(token: string)
    requires !Contains(token, BearerPrefix)
    ensures GetAuthorizationToken(BearerPrefix + token) == Answer(token)
  {
    RemoveLeadingPattern(BearerPrefix, token);
    RemoveAbsent(token, BearerPrefix);
  }

  /** `verify_trading_account_access`: the trading account exists and belongs to the user. */
  function HasAccess(owners: map<int, int>, accountId: int, userId: int): (r: bool)
    ensures r ==> accountId in owners && owners[accountId] == userId
    ensures accountId in owners && owners[accountId] == userId ==> r
  {
    accountId in owners && owners[accountId] == userId
  }

  /** At most one user has access to a trading account, and an unknown account is open to nobody. */
  lemma AccessIsExclusive(owners: map<int, int>, accountId: int, u1: int, u2: int)
    requires HasAccess(owners, accountId, u1) && HasAccess(owners, accountId, u2)
    ensures u1 == u2
  {
  }

  // ---------------------------------------------------------------- the investor password

  /** `EncryptionService.encrypt`: the empty text stays empty, anything else goes through the cipher. */
  function Encrypt(cipher: string -> string, plaintext: string): string {
    if plaintext == [] then [] else cipher(plaintext)
  }

  /** `EncryptionService.decrypt`. */
  function Decrypt(decipher: string -> string, ciphertext: string): string {
    if ciphertext == [] then [] else decipher(ciphertext)
  }

  /** When the cipher never yields the empty text and deciphering undoes it, decrypting an encrypted password gives it back. */
  lemma EncryptionRoundTrip(cipher: string -> string, decipher: string -> string, plaintext: string)
    requires plaintext != [] ==> cipher(plaintext) != [] && decipher(cipher(plaintext)) == plaintext
    ensures Decrypt(decipher, Encrypt(cipher, plaintext)) == plaintext
  {
  }

  // ---------------------------------------------------------------- records

  const StatusConnected := "CONNECTED"
  const StatusError := "ERROR"

  /** One row of `mt5_investor_accounts` (app/models.py:7-19); times are epoch seconds. */
  datatype CredentialRecord = CredentialRecord(
    id: int,
    login: int,
    server: string,
    encryptedPassword: string,
    lastSyncAt: Option<int>,
    status: string,
    errorMessage: Option<string>)

  /** `Mt5SyncResponse` (app/schemas.py:41-47). */
  datatype SyncResponse = SyncResponse(
    success: bool, synced: nat, skipped: nat, errors: seq<string>, total: nat, message: Option<string>)

  /** A failed sync with the schema's defaults for every other field. */
  function SyncFailure(message: string): SyncResponse {
    SyncResponse(false, 0, 0, [], 0, Some(message))
  }

  /** `Mt5ConnectResponse` (app/schemas.py:13-17). */
  datatype ConnectResponse = ConnectResponse(success: bool, accountId: Option<int>, status: string, message: Option<string>)

  const DaySeconds := 86400
  const LookbackDays := 30

  /** Start of the fetch window: the watermark, or thirty days before the clock when there is none. */
  function WindowStart(lastSyncAt: Option<int>, clock: int): int {
    if lastSyncAt.Some? then lastSyncAt.value else clock - LookbackDays * DaySeconds
  }

  /** What `MT5Client.connect` reports when `initialize` or `login` fails. */
  function ClientConnectError(initOk: bool, lastError: string): string {
    if !initOk then "MT5 initialization failed: " + lastError else "MT5 login failed: " + lastError
  }

  function SyncedMessage(synced: nat, skipped: nat): string {
    "Synced " + IntToString(synced) + " trades, skipped " + IntToString(skipped) + " duplicates"
  }

  /**
   * `MT5Client()` raises a bare `RuntimeError` without the library
   * (app/mt5_client.py:22-26) and no handler catches it, so the framework
   * answers with its generic 500.
   */
  const InternalServerError := "Internal Server Error"

  lemma IdsAppend(a: seq<TradeRow>, b: seq<TradeRow>)
    ensures Ids(a + b) == Ids(a) + Ids(b)
    decreases |b|
  {
    if b == [] {
      assert a + b == a;
    } else {
      var c := a + b;
      assert c[..|c| - 1] == a + b[..|b| - 1];
      IdsAppend(a, b[..|b| - 1]);
    }
  }

  // ---------------------------------------------------------------- the database

  class Backend {
    /** `trading_accounts`: account id to its owner's user id. */
    var owners: map<int, int>
    /** `mt5_investor_accounts`, keyed by the unique `trading_account_id`. */
    var credentials: map<int, CredentialRecord>
    /**
     * Which deal entry codes the handler reads as the exit and the entry leg:
     * `SourceLegCodes` as the handler is written, `TerminalLegCodes` as the
     * terminal numbers them.
     */
    const codes: LegCodes
    /** `settings.mt5_path`, the terminal path the backend's client initialises with. */
    const mt5Path: Option<string>
    /** The next primary key the database hands out for a credential row. */
    var nextCredentialId: int
    /** `trades`; its terminal trade ids are the ledger the sync checks. */
    var trades: seq<TradeRow>

    /** Every credential row has a primary key below the next one to be handed out. */
    ghost predicate Valid()
      reads this
    {
      && codes.exitCode != codes.entryCode
      && forall a :: a in credentials ==> credentials[a].id < nextCredentialId
    }

    constructor (owners: map<int, int>, trades: seq<TradeRow>, mt5Path: Option<string>, codes: LegCodes)
      requires codes.exitCode != codes.entryCode
      ensures Valid()
      ensures this.owners == owners && credentials == map[] && this.trades == trades
      ensures this.mt5Path == mt5Path && this.codes == codes
    {
      this.mt5Path, this.codes := mt5Path, codes;
      this.owners, credentials, nextCredentialId, this.trades := owners, map[], 1, trades;
    }

    /**
     * The `try` body for one position (app/routers/mt5.py:267-347): pick the
     * legs, then, for a closed position, look its id up in the ledger and
     * count a duplicate, or insert its row, unless the database raises.
     */
    method WritePosition(accountId: int, p: int, group: seq<RawDeal>, faults: map<int, Fault>)
      returns (o: Outcome)
      requires codes.exitCode != codes.entryCode
      modifies this
      ensures o == Decide(codes, accountId, p, group, Ids(old(trades)), faults)
      ensures trades == old(trades) + (if o.Inserted? then [o.row] else [])
      ensures owners == old(owners) && credentials == old(credentials) && nextCredentialId == old(nextCredentialId)
    {
      var exitLeg, entryLeg := PickLegs(group, codes);
      if exitLeg.None? {
        return Open;
      }
      var id := TradeId(p, TicketOf(exitLeg.value));
      if p in faults && faults[p].QueryFails? {
        return Failed(ErrorText(p, faults[p].reason));
      }
      if id in Ids(trades) {
        return Duplicate;
      }
      if p in faults {
        return Failed(ErrorText(p, faults[p].reason));
      }
      var row := BuildRow(accountId, p, exitLeg.value, entryLeg);
      trades := trades + [row];
      return Inserted(row);
    }

    /**
     * The per-position loop of `sync_trades` (app/routers/mt5.py:253-350):
     * group the deals, then write each position in turn, counting its
     * outcome; a failing position only adds its error.
     */
    method WriteTrades(accountId: int, deals: seq<RawDeal>, faults: map<int, Fault>)
      returns (synced: nat, skipped: nat, errors: seq<string>)
      requires codes.exitCode != codes.entryCode
      modifies this
      ensures var t := Reconcile(codes, accountId, deals, Ids(old(trades)), faults);
        && trades == old(trades) + t.inserted
        && synced == t.synced && skipped == t.skipped && errors == t.errors
      ensures owners == old(owners) && credentials == old(credentials) && nextCredentialId == old(nextCredentialId)
    {
      var order, groups := GroupByPosition(deals);
      synced, skipped, errors := WriteGroups(accountId, deals, order, groups, faults);
    }

    /** The loop over `deals_by_position.items()`, given the grouping of `deals`. */
    method WriteGroups(accountId: int, deals: seq<RawDeal>, order: seq<int>, groups: map<int, seq<RawDeal>>,
                       faults: map<int, Fault>)
      returns (synced: nat, skipped: nat, errors: seq<string>)
      requires codes.exitCode != codes.entryCode
      requires forall p :: p in order ==> p in groups && groups[p] == DealsOf(deals, p)
      modifies this
      ensures var t := Run(codes, accountId, deals, order, Ids(old(trades)), faults);
        && trades == old(trades) + t.inserted
        && synced == t.synced && skipped == t.skipped && errors == t.errors
      ensures owners == old(owners) && credentials == old(credentials) && nextCredentialId == old(nextCredentialId)
    {
      ghost var ids0 := Ids(trades);
      var tally := NoTally;
      var k := 0;
      while k < |order|
        invariant 0 <= k <= |order|
        invariant Run(codes, accountId, deals, order[..k], ids0, faults) == tally
        invariant trades == old(trades) + tally.inserted
        invariant owners == old(owners) && credentials == old(credentials) && nextCredentialId == old(nextCredentialId)
      {
        var p := order[k];
        ghost var prev := tally;
        tally := WriteStep(accountId, p, groups[p], faults, tally, old(trades));
        RunAdvance(codes, accountId, deals, order, k, ids0, faults, prev, tally);
        k := k + 1;
      }
      assert order[..|order|] == order;
      synced, skipped, errors := tally.synced, tally.skipped, tally.errors;
    }

    /**
     * One position of the loop: write it and count its outcome on top of
     * `tally`, the count so far; `base` is the ledger before the loop.
     */
    method WriteStep(accountId: int, p: int, group: seq<RawDeal>, faults: map<int, Fault>,
                     tally: Tally, ghost base: seq<TradeRow>)
      returns (next: Tally)
      requires codes.exitCode != codes.entryCode
      requires trades == base + tally.inserted
      modifies this
      ensures next == Record(tally, Decide(codes, accountId, p, group, Ids(base) + Ids(tally.inserted), faults))
      ensures trades == base + next.inserted
      ensures owners == old(owners) && credentials == old(credentials) && nextCredentialId == old(nextCredentialId)
    {
      IdsAppend(base, tally.inserted);
      var o := WritePosition(accountId, p, group, faults);
      // `synced += 1`, `skipped += 1` or `errors.append(...)`, as the outcome says
      next := Record(tally, o);
      RecordEffect(tally, o);
    }

    /**
     * `sync_trades(trading_account_id)` for the user of the token. The two
     * readings of the clock are `startClock` (the fallback window start) and
     * `endClock` (`to_time`); `initOk`, `loginOk` and `lastError` are the
     * terminal's answers, `history` its deal history and `faults` the
     * positions whose database work raises.
     */
    method SyncTrades(accountId: int, userId: int, terminal: Terminal, startClock: int, endClock: int,
                      initOk: bool, loginOk: bool, lastError: string,
                      history: HistoryOracle, faults: map<int, Fault>)
      returns (r: Reply<SyncResponse>)
      requires Valid()
      modifies this, terminal
      ensures Valid()
      ensures owners == old(owners) && nextCredentialId == old(nextCredentialId)
      ensures !HasAccess(old(owners), accountId, userId) ==>
        r == HttpError(403, "Access denied to this trading account") && unchanged(this) && unchanged(terminal)
      ensures HasAccess(old(owners), accountId, userId) && accountId !in old(credentials) ==>
        r == HttpError(404, "MT5 account not found") && unchanged(this) && unchanged(terminal)
      ensures HasAccess(old(owners), accountId, userId) && accountId in old(credentials) ==>
        var rec := old(credentials)[accountId];
        && (rec.status != StatusConnected ==>
              r == Answer(SyncFailure("Account is not connected. Status: " + rec.status)) && unchanged(this) && unchanged(terminal))
        && (rec.status == StatusConnected && !terminal.available ==>
              r == HttpError(500, InternalServerError) && unchanged(this) && unchanged(terminal))
        && (rec.status == StatusConnected && terminal.available && !(initOk && loginOk) ==>
              var err := ClientConnectError(initOk, lastError);
              && r == Answer(SyncFailure("Failed to connect to MT5: " + err))
              && credentials == old(credentials)[accountId := rec.(status := StatusError, errorMessage := Some(err))]
              && trades == old(trades)
              && !terminal.initialized)
        && (rec.status == StatusConnected && terminal.available && initOk && loginOk ==>
              var fetched := history(WindowStart(rec.lastSyncAt, startClock), endClock);
              var deals := if fetched.Some? then fetched.value else [];
              var t := Reconcile(codes, accountId, deals, Ids(old(trades)), faults);
              && r == Answer(SyncResponse(true, t.synced, t.skipped, t.errors, |deals|, Some(SyncedMessage(t.synced, t.skipped))))
              && trades == old(trades) + t.inserted
              && credentials == old(credentials)[accountId := rec.(lastSyncAt := Some(endClock), status := StatusConnected, errorMessage := None)]
              && !terminal.initialized && terminal.shutdowns == old(terminal.shutdowns) + 1)
    {
      if !HasAccess(owners, accountId, userId) {
        return HttpError(403, "Access denied to this trading account");
      }
      if accountId !in credentials {
        return HttpError(404, "MT5 account not found");
      }
      var rec := credentials[accountId];
      if rec.status != StatusConnected {
        return Answer(SyncFailure("Account is not connected. Status: " + rec.status));
      }
      if !terminal.available {
        return HttpError(500, InternalServerError);
      }
      var client := new MT5Client(terminal);
      var ok, err := client.Connect(rec.login, rec.server, mt5Path, initOk, loginOk, lastError);
      if !ok {
        credentials := credentials[accountId := rec.(status := StatusError, errorMessage := err)];
        return Answer(SyncFailure("Failed to connect to MT5: " + err.value));
      }
      var fromTime := WindowStart(rec.lastSyncAt, startClock);
      var toTime := endClock;
      var deals := client.GetDeals(fromTime, toTime, history);
      client.Disconnect();
      var synced, skipped, errors := WriteTrades(accountId, deals, faults);
      credentials := credentials[accountId := rec.(lastSyncAt := Some(toTime), status := StatusConnected, errorMessage := None)];
      return Answer(SyncResponse(true, synced, skipped, errors, |deals|, Some(SyncedMessage(synced, skipped))));
    }

    /**
     * `connect_mt5`: check ownership, log in once to prove the credentials,
     * then store them (app/routers/mt5.py:54-118). An existing row gets the
     * new login, server and password and is marked connected, keeping its
     * key and its watermark; otherwise a new row is added with no watermark.
     */
    method ConnectMt5(accountId: int, userId: int, login: int, server: string, password: string,
                      terminal: Terminal, initOk: bool, loginOk: bool, lastError: string,
                      cipher: string -> string)
      returns (r: Reply<ConnectResponse>)
      requires Valid()
      modifies this, terminal
      ensures Valid()
      ensures owners == old(owners) && trades == old(trades)
      ensures !HasAccess(old(owners), accountId, userId) ==>
        r == HttpError(403, "Access denied to this trading account") && unchanged(this) && unchanged(terminal)
      ensures HasAccess(old(owners), accountId, userId) && !terminal.available ==>
        r == HttpError(500, InternalServerError) && unchanged(this) && unchanged(terminal)
      ensures HasAccess(old(owners), accountId, userId) && terminal.available && !(initOk && loginOk) ==>
        && r == Answer(ConnectResponse(false, None, StatusError, Some(ClientConnectError(initOk, lastError))))
        && credentials == old(credentials) && nextCredentialId == old(nextCredentialId)
        && !terminal.initialized
      ensures HasAccess(old(owners), accountId, userId) && terminal.available && initOk && loginOk ==>
        && !terminal.initialized && terminal.shutdowns == old(terminal.shutdowns) + 1
        && accountId in credentials
        && credentials == old(credentials)[accountId := credentials[accountId]]
        && var rec := credentials[accountId];
        && rec.login == login && rec.server == server && rec.encryptedPassword == Encrypt(cipher, password)
        && rec.status == StatusConnected && rec.errorMessage == None
        && r == Answer(ConnectResponse(true, Some(rec.id), StatusConnected, Some("Successfully connected to MT5")))
        && (accountId in old(credentials) ==>
              rec.id == old(credentials)[accountId].id && rec.lastSyncAt == old(credentials)[accountId].lastSyncAt
              && nextCredentialId == old(nextCredentialId))
        && (accountId !in old(credentials) ==>
              rec.id == old(nextCredentialId) && rec.lastSyncAt == None && nextCredentialId == old(nextCredentialId) + 1)
    {
      if !HasAccess(owners, accountId, userId) {
        return HttpError(403, "Access denied to this trading account");
      }
      if !terminal.available {
        return HttpError(500, InternalServerError);
      }
      var client := new MT5Client(terminal);
      var ok, err := client.Connect(login, server, mt5Path, initOk, loginOk, lastError);
      if !ok {
        client.Disconnect();
        return Answer(ConnectResponse(false, None, StatusError, err));
      }
      client.Disconnect();
      var encrypted := Encrypt(cipher, password);
      var rec: CredentialRecord;
      if accountId in credentials {
        var existing := credentials[accountId];
        rec := existing.(login := login, server := server, encryptedPassword := encrypted,
                         status := StatusConnected, errorMessage := None);
      } else {
        rec := CredentialRecord(nextCredentialId, login, server, encrypted, None, StatusConnected, None);
        nextCredentialId := nextCredentialId + 1;
      }
      credentials := credentials[accountId := rec];
      return Answer(ConnectResponse(true, Some(rec.id), StatusConnected, Some("Successfully connected to MT5")));
    }
  }
}
