/**
 * Deal-to-trade reconciliation of the backend's `sync_trades` handler
 * (app/routers/mt5.py:253-350): deals are grouped by position, each group
 * yields at most one trade keyed by a deterministic terminal trade id, and
 * the id is checked against the ledger before the trade is inserted.
 *
 * The functions here are the specification; `GroupByPosition` and
 * `PickLegs` are the handler's loops, proved against them, and
 * `Backend.SyncTrades` runs the per-position loop against `Run`.
 */
module Reconciliation {
  import opened Common
  import opened Text
  import opened Deals

  // ---------------------------------------------------------------- grouping by position

  /** Non-zero position ids in order of first appearance: the key order of `deals_by_position`. */
  function Positions(deals: seq<RawDeal>): seq<int>
    decreases |deals|
  {
    if deals == [] then []
    else
      var ps := Positions(deals[..|deals| - 1]);
      var p := PositionOf(deals[|deals| - 1]);
      if p == 0 || p in ps then ps else ps + [p]
  }

  /** The deals of position `p`, in their original order: the list `deals_by_position[p]`. */
  function DealsOf(deals: seq<RawDeal>, p: int): seq<RawDeal>
    decreases |deals|
  {
    if deals == [] then []
    else
      var rest := DealsOf(deals[..|deals| - 1], p);
      if PositionOf(deals[|deals| - 1]) == p then rest + [deals[|deals| - 1]] else rest
  }

  predicate Distinct(s: seq<int>) {
    forall i, j :: 0 <= i < j < |s| ==> s[i] != s[j]
  }

  predicate Occurs(deals: seq<RawDeal>, p: int) {
    exists i :: 0 <= i < |deals| && PositionOf(deals[i]) == p
  }

  /** Every non-zero position id of the deals appears exactly once; position 0 never does. */
  lemma {:induction false} PositionsSpec(deals: seq<RawDeal>)
    ensures Distinct(Positions(deals)) && 0 !in Positions(deals)
    ensures |Positions(deals)| <= |deals|
    ensures forall p :: p in Positions(deals) <==> p != 0 && Occurs(deals, p)
    decreases |deals|
  {
    if deals != [] {
      var init := deals[..|deals| - 1];
      PositionsSpec(init);
      forall p ensures Occurs(deals, p) <==> Occurs(init, p) || PositionOf(deals[|deals| - 1]) == p {
        if Occurs(deals, p) && PositionOf(deals[|deals| - 1]) != p {
          var i :| 0 <= i < |deals| && PositionOf(deals[i]) == p;
          assert init[i] == deals[i];
        }
        if Occurs(init, p) {
          var i :| 0 <= i < |init| && PositionOf(init[i]) == p;
          assert deals[i] == init[i];
        }
      }
    }
  }

  /** A group holds exactly the deals of its position, in order; deals of position 0 are in no group. */
  lemma {:induction false} DealsOfSpec(deals: seq<RawDeal>, p: int)
    ensures forall d :: d in DealsOf(deals, p) <==> d in deals && PositionOf(d) == p
    ensures DealsOf(deals, p) != [] <==> Occurs(deals, p)
    ensures |DealsOf(deals, p)| <= |deals|
    decreases |deals|
  {
    if deals != [] {
      var init := deals[..|deals| - 1];
      DealsOfSpec(init, p);
      assert deals == init + [deals[|deals| - 1]];
      if Occurs(init, p) {
        var i :| 0 <= i < |init| && PositionOf(init[i]) == p;
        assert deals[i] == init[i];
      }
      if Occurs(deals, p) && PositionOf(deals[|deals| - 1]) != p {
        var i :| 0 <= i < |deals| && PositionOf(deals[i]) == p;
        assert init[i] == deals[i];
      }
    }
  }

  lemma DealsOfAbsent(deals: seq<RawDeal>, p: int)
    requires p != 0 && p !in Positions(deals)
    ensures DealsOf(deals, p) == []
  {
    PositionsSpec(deals);
    DealsOfSpec(deals, p);
  }

  /**
   * The grouping loop (app/routers/mt5.py:257-264): skip deals whose
   * position is 0 or missing, and append every other deal to the list of
   * its position, creating the list on first sight.
   */
  method GroupByPosition(deals: seq<RawDeal>) returns (order: seq<int>, groups: map<int, seq<RawDeal>>)
    ensures order == Positions(deals)
    ensures forall p :: p in groups <==> p in order
    ensures forall p :: p in groups ==> groups[p] == DealsOf(deals, p)
  {
    order, groups := [], map[];
    for i := 0 to |deals|
      invariant order == Positions(deals[..i])
      invariant forall p :: p in groups <==> p in order
      invariant forall p :: p in groups ==> groups[p] == DealsOf(deals[..i], p)
    {
      var deal := deals[i];
      var p := PositionOf(deal);
      var prefix := deals[..i + 1];
      assert prefix[..i] == deals[..i] && prefix[i] == deal;
      PositionsSpec(deals[..i]);
      forall q ensures DealsOf(prefix, q) == if p == q then DealsOf(deals[..i], q) + [deal] else DealsOf(deals[..i], q) { }
      assert Positions(prefix) == if p == 0 || p in Positions(deals[..i]) then order else order + [p];
      if p != 0 {
        if p !in groups {
          DealsOfAbsent(deals[..i], p);
          groups := groups[p := []];
          order := order + [p];
        }
        groups := groups[p := groups[p] + [deal]];
      }
    }
    assert deals[..|deals|] == deals;
  }

  // ---------------------------------------------------------------- choosing the legs

  /** Which values of a deal's `entry` field mark the closing leg and the opening leg. */
  datatype LegCodes = LegCodes(exitCode: int, entryCode: int)

  /** As written (app/routers/mt5.py:273-276): `entry == 0` is taken as the exit leg, `entry == 1` as the entry leg. */
  const SourceLegCodes := LegCodes(0, 1)

  /** The last deal of the group whose entry code is `code`. */
  function LastWithEntry(group: seq<RawDeal>, code: int): Option<RawDeal>
    decreases |group|
  {
    if group == [] then None
    else if group[|group| - 1].entry == Some(code) then Some(group[|group| - 1])
    else LastWithEntry(group[..|group| - 1], code)
  }

  /** `LastWithEntry` finds a deal with the code, and no later deal has it; it finds none only when no deal has it. */
  lemma {:induction false} LastWithEntrySpec(group: seq<RawDeal>, code: int)
    ensures LastWithEntry(group, code).None? <==> forall i :: 0 <= i < |group| ==> group[i].entry != Some(code)
    ensures LastWithEntry(group, code).Some? ==>
      exists i :: 0 <= i < |group| && group[i] == LastWithEntry(group, code).value && group[i].entry == Some(code)
        && forall j :: i < j < |group| ==> group[j].entry != Some(code)
    decreases |group|
  {
    if group != [] {
      var init := group[..|group| - 1];
      LastWithEntrySpec(init, code);
      forall i | 0 <= i < |init| ensures group[i] == init[i] { }
      if group[|group| - 1].entry != Some(code) && LastWithEntry(init, code).Some? {
        var i :| 0 <= i < |init| && init[i] == LastWithEntry(init, code).value && init[i].entry == Some(code)
          && forall j :: i < j < |init| ==> init[j].entry != Some(code);
        assert group[i] == init[i];
      }
    }
  }

  /**
   * The leg scan (app/routers/mt5.py:268-276): walk the group, overwriting
   * the exit leg on every deal with the exit code and the entry leg on every
   * deal with the entry code, so the last of each wins.
   */
  method PickLegs(group: seq<RawDeal>, codes: LegCodes) returns (exitLeg: Option<RawDeal>, entryLeg: Option<RawDeal>)
    requires codes.exitCode != codes.entryCode
    ensures exitLeg == LastWithEntry(group, codes.exitCode)
    ensures entryLeg == LastWithEntry(group, codes.entryCode)
  {
    exitLeg, entryLeg := None, None;
    for i := 0 to |group|
      invariant exitLeg == LastWithEntry(group[..i], codes.exitCode)
      invariant entryLeg == LastWithEntry(group[..i], codes.entryCode)
    {
      var prefix := group[..i + 1];
      assert prefix[..i] == group[..i] && prefix[i] == group[i];
      var code := group[i].entry;
      if code == Some(codes.exitCode) {
        exitLeg := Some(group[i]);
      } else if code == Some(codes.entryCode) {
        entryLeg := Some(group[i]);
      }
    }
    assert group[..|group|] == group;
  }

  // ---------------------------------------------------------------- the trade record

  /** `f"mt5_{position_id}_{ticket}"`. */
  function TradeId(positionId: int, ticket: int): string {
    "mt5_" + IntToString(positionId) + "_" + IntToString(ticket)
  }

  /** Reads a terminal trade id back into its position id and exit ticket. */
  function ParseTradeId(s: string): Option<(int, int)> {
    if !StartsWith(s, "mt5_") then None
    else match SplitFirst(s[4..], '_')
      case None => None
      case Some((a, b)) =>
        match (PyIntText(a), PyIntText(b))
        case (Some(p), Some(t)) => Some((p, t))
        case _ => None
  }

  /** The terminal trade id determines the position and the exit ticket it was made from. */
  lemma TradeIdRoundTrip(positionId: int, ticket: int)
    ensures ParseTradeId(TradeId(positionId, ticket)) == Some((positionId, ticket))
  {
    var a, b := IntToString(positionId), IntToString(ticket);
    var s := TradeId(positionId, ticket);
    assert s == "mt5_" + (a + ['_'] + b);
    assert StartsWith(s, "mt5_") && s[4..] == a + ['_'] + b;
    assert SplitFirst(s[4..], '_') == Some((a, b)) by { SplitFirstAt(a, '_', b); }
    assert PyIntText(a) == Some(positionId) by { IntToStringRoundTrip(positionId); }
    assert PyIntText(b) == Some(ticket) by { IntToStringRoundTrip(ticket); }
  }

  /** Two positions, or two exit tickets, never share a terminal trade id. */
  lemma TradeIdInjective(p1: int, t1: int, p2: int, t2: int)
    requires TradeId(p1, t1) == TradeId(p2, t2)
    ensures p1 == p2 && t1 == t2
  {
    TradeIdRoundTrip(p1, t1);
    TradeIdRoundTrip(p2, t2);
  }

  const HourSeconds := 3600

  datatype Side = Buy | Sell

  /** One row of the `trades` table as `sync_trades` inserts it. */
  datatype TradeRow = TradeRow(
    tradingAccountId: int,
    terminalTradeId: string,
    terminalName: string,
    fromTerminal: bool,
    symbol: string,
    side: Side,
    quantity: real,
    entryDate: int,
    exitDate: int,
    profit: real,
    pnl: real)

  function Abs(x: real): real { if x < 0.0 then -x else x }

  /** The row built from a position's legs (app/routers/mt5.py:293-346). */
  function BuildRow(accountId: int, positionId: int, exitLeg: RawDeal, entryLeg: Option<RawDeal>): (row: TradeRow)
    ensures row.terminalTradeId == TradeId(positionId, TicketOf(exitLeg))
    ensures row.exitDate == TimeOf(exitLeg)
    ensures entryLeg.Some? ==> row.entryDate == TimeOf(entryLeg.value)
    ensures entryLeg.None? ==> row.entryDate == row.exitDate - HourSeconds
    ensures row.side == Buy <==> exitLeg.dealType == Some(0)
    ensures row.quantity >= 0.0 && (row.quantity == VolumeOf(exitLeg) || row.quantity == -VolumeOf(exitLeg))
    ensures row.profit == row.pnl == ProfitOf(exitLeg)
    ensures row.tradingAccountId == accountId && row.terminalName == "mt5" && row.fromTerminal
    ensures row.symbol == SymbolOf(exitLeg)
  {
    var exitTime := TimeOf(exitLeg);
    var entryTime := if entryLeg.Some? then TimeOf(entryLeg.value) else exitTime - HourSeconds;
    TradeRow(
      accountId, TradeId(positionId, TicketOf(exitLeg)), "mt5", true, SymbolOf(exitLeg),
      if exitLeg.dealType == Some(0) then Buy else Sell,
      Abs(VolumeOf(exitLeg)), entryTime, exitTime, ProfitOf(exitLeg), ProfitOf(exitLeg))
  }

  // ---------------------------------------------------------------- the per-position step

  /**
   * What the store does when a position is written: the existence query
   * raises, or the row conversion or the insert raises, with the text of
   * the exception.
   */
  datatype Fault = QueryFails(reason: string) | InsertFails(reason: string)

  /** The fate of one position. */
  datatype Outcome = Open | Duplicate | Inserted(row: TradeRow) | Failed(message: string)

  function ErrorText(positionId: int, reason: string): string {
    "Error processing position " + IntToString(positionId) + ": " + reason
  }

  /** The body of the `try` for one position (app/routers/mt5.py:267-350), given the ids already in the ledger. */
  function Decide(codes: LegCodes, accountId: int, positionId: int, group: seq<RawDeal>,
                  ids: set<string>, faults: map<int, Fault>): Outcome
  {
    var exitLeg := LastWithEntry(group, codes.exitCode);
    if exitLeg.None? then Open
    else
      var id := TradeId(positionId, TicketOf(exitLeg.value));
      if positionId in faults && faults[positionId].QueryFails? then Failed(ErrorText(positionId, faults[positionId].reason))
      else if id in ids then Duplicate
      else if positionId in faults then Failed(ErrorText(positionId, faults[positionId].reason))
      else Inserted(BuildRow(accountId, positionId, exitLeg.value, LastWithEntry(group, codes.entryCode)))
  }

  /**
   * The fate of one position: still open without an exit leg; a failed
   * existence check is an error; a known id is a duplicate; a failed insert
   * is an error; otherwise a row carrying the position's id is inserted.
   */
  lemma DecideSpec(codes: LegCodes, accountId: int, p: int, group: seq<RawDeal>, ids: set<string>, faults: map<int, Fault>)
    ensures var exitLeg := LastWithEntry(group, codes.exitCode);
      var o := Decide(codes, accountId, p, group, ids, faults);
      && (o == Open <==> exitLeg.None?)
      && (o == Duplicate <==> exitLeg.Some? && !(p in faults && faults[p].QueryFails?) && TradeId(p, TicketOf(exitLeg.value)) in ids)
      && (o.Failed? <==> exitLeg.Some? && p in faults && (faults[p].QueryFails? || TradeId(p, TicketOf(exitLeg.value)) !in ids))
      && (o.Failed? ==> o.message == ErrorText(p, faults[p].reason))
      && (o.Inserted? ==> p !in faults && o.row.terminalTradeId == TradeId(p, TicketOf(exitLeg.value)) && o.row.terminalTradeId !in ids)
  {
  }

  /** The counters, the error list and the rows inserted so far. */
  datatype Tally = Tally(synced: nat, skipped: nat, errors: seq<string>, inserted: seq<TradeRow>)

  const NoTally := Tally(0, 0, [], [])

  function Record(t: Tally, o: Outcome): Tally {
    match o
    case Open => t
    case Duplicate => t.(skipped := t.skipped + 1)
    case Inserted(row) => t.(synced := t.synced + 1, inserted := t.inserted + [row])
    case Failed(message) => t.(errors := t.errors + [message])
  }

  /** What recording one outcome does to the counters and to the inserted rows. */
  lemma RecordEffect(t: Tally, o: Outcome)
    ensures var n := Record(t, o);
      && n.synced + n.skipped + |n.errors| == t.synced + t.skipped + |t.errors| + (if o.Open? then 0 else 1)
      && (o.Inserted? ==> n.synced == t.synced + 1 && n.inserted == t.inserted + [o.row]
                          && Ids(n.inserted) == Ids(t.inserted) + {o.row.terminalTradeId})
      && (!o.Inserted? ==> n.synced == t.synced && n.inserted == t.inserted)
  {
    if o.Inserted? {
      var ins := t.inserted + [o.row];
      assert ins[..|ins| - 1] == t.inserted;
    }
  }

  /** The terminal trade ids of some rows. */
  function Ids(rows: seq<TradeRow>): set<string>
    decreases |rows|
  {
    if rows == [] then {} else Ids(rows[..|rows| - 1]) + {rows[|rows| - 1].terminalTradeId}
  }

  /** Processing the positions `order` in turn, each against the ledger `ids0` plus the rows inserted before it. */
  function Run(codes: LegCodes, accountId: int, deals: seq<RawDeal>, order: seq<int>,
               ids0: set<string>, faults: map<int, Fault>): Tally
    decreases |order|
  {
    if order == [] then NoTally
    else
      var t := Run(codes, accountId, deals, order[..|order| - 1], ids0, faults);
      var p := order[|order| - 1];
      Record(t, Decide(codes, accountId, p, DealsOf(deals, p), ids0 + Ids(t.inserted), faults))
  }

  /** One more position: the run over `order[..k + 1]` records the outcome of `order[k]` on top of the run over `order[..k]`. */
  lemma RunStep(codes: LegCodes, accountId: int, deals: seq<RawDeal>, order: seq<int>, k: nat,
                ids0: set<string>, faults: map<int, Fault>)
    requires k < |order|
    ensures var t := Run(codes, accountId, deals, order[..k], ids0, faults);
      Run(codes, accountId, deals, order[..k + 1], ids0, faults)
        == Record(t, Decide(codes, accountId, order[k], DealsOf(deals, order[k]), ids0 + Ids(t.inserted), faults))
  {
    assert order[..k + 1][..k] == order[..k];
  }

  /** The whole reconciliation of one fetch of deals against the ledger `ids0`. */
  function Reconcile(codes: LegCodes, accountId: int, deals: seq<RawDeal>,
                     ids0: set<string>, faults: map<int, Fault>): Tally
  {
    Run(codes, accountId, deals, Positions(deals), ids0, faults)
  }

  // ---------------------------------------------------------------- properties

  predicate IsClosed(codes: LegCodes, deals: seq<RawDeal>, p: int) {
    LastWithEntry(DealsOf(deals, p), codes.exitCode).Some?
  }

  /** Number of positions of `order` that have an exit leg. */
  function ClosedCount(codes: LegCodes, deals: seq<RawDeal>, order: seq<int>): (n: nat)
    ensures n <= |order|
    decreases |order|
  {
    if order == [] then 0
    else ClosedCount(codes, deals, order[..|order| - 1]) + (if IsClosed(codes, deals, order[|order| - 1]) then 1 else 0)
  }

  /** One outcome keeps the counting invariant of `RunCounts`, provided an inserted id is new. */
  lemma CountsStep(t: Tally, o: Outcome, ids0: set<string>, closed: nat)
    requires t.synced + t.skipped + |t.errors| == closed
    requires t.synced == |t.inserted| == |Ids(t.inserted)| && Ids(t.inserted) !! ids0
    requires o.Inserted? ==> o.row.terminalTradeId !in ids0 + Ids(t.inserted)
    ensures var n := Record(t, o);
      && n.synced + n.skipped + |n.errors| == closed + (if o.Open? then 0 else 1)
      && n.synced == |n.inserted| == |Ids(n.inserted)|
      && Ids(n.inserted) !! ids0
  {
    RecordEffect(t, o);
  }

  /**
   * Every closed position bumps exactly one of `synced`, `skipped` and the
   * error list, an open one none; `synced` counts the inserted rows, whose
   * ids are distinct and were not in the ledger.
   */
  lemma {:induction false} RunCounts(codes: LegCodes, accountId: int, deals: seq<RawDeal>, order: seq<int>,
                                     ids0: set<string>, faults: map<int, Fault>)
    ensures var t := Run(codes, accountId, deals, order, ids0, faults);
      && t.synced + t.skipped + |t.errors| == ClosedCount(codes, deals, order)
      && t.synced == |t.inserted| == |Ids(t.inserted)|
      && Ids(t.inserted) !! ids0
    decreases |order|
  {
    if order != [] {
      var init := order[..|order| - 1];
      RunCounts(codes, accountId, deals, init, ids0, faults);
      var t := Run(codes, accountId, deals, init, ids0, faults);
      var p := order[|order| - 1];
      var ids := ids0 + Ids(t.inserted);
      var o := Decide(codes, accountId, p, DealsOf(deals, p), ids, faults);
      DecideSpec(codes, accountId, p, DealsOf(deals, p), ids, faults);
      CountsStep(t, o, ids0, ClosedCount(codes, deals, init));
      assert Run(codes, accountId, deals, order, ids0, faults) == Record(t, o);
      assert ClosedCount(codes, deals, order) == ClosedCount(codes, deals, init) + (if o.Open? then 0 else 1);
    }
  }

  /** Counters of a whole reconciliation are bounded by the number of non-zero positions and of deals. */
  lemma ReconcileBounds(codes: LegCodes, accountId: int, deals: seq<RawDeal>, ids0: set<string>, faults: map<int, Fault>)
    ensures var t := Reconcile(codes, accountId, deals, ids0, faults);
      t.synced + t.skipped + |t.errors| <= |Positions(deals)| <= |deals|
  {
    RunCounts(codes, accountId, deals, Positions(deals), ids0, faults);
    PositionsSpec(deals);
  }

  /** The ledger only grows along a run: the rows of a prefix are a prefix of the rows. */
  lemma {:induction false} RunGrows(codes: LegCodes, accountId: int, deals: seq<RawDeal>, order: seq<int>, k: nat,
                                    ids0: set<string>, faults: map<int, Fault>)
    requires k <= |order|
    ensures Ids(Run(codes, accountId, deals, order[..k], ids0, faults).inserted)
         <= Ids(Run(codes, accountId, deals, order, ids0, faults).inserted)
    decreases |order|
  {
    if k < |order| {
      var init := order[..|order| - 1];
      assert init[..k] == order[..k];
      RunGrows(codes, accountId, deals, init, k, ids0, faults);
      var t := Run(codes, accountId, deals, init, ids0, faults);
      var p := order[|order| - 1];
      var o := Decide(codes, accountId, p, DealsOf(deals, p), ids0 + Ids(t.inserted), faults);
      if o.Inserted? {
        var ins := t.inserted + [o.row];
        assert ins[..|ins| - 1] == t.inserted;
      }
    } else {
      assert order[..k] == order;
    }
  }

  /** The terminal trade id a closed position is recorded under. */
  function IdOf(codes: LegCodes, deals: seq<RawDeal>, p: int): string
    requires IsClosed(codes, deals, p)
  {
    TradeId(p, TicketOf(LastWithEntry(DealsOf(deals, p), codes.exitCode).value))
  }

  /**
   * Error isolation: after a run, every closed position without a fault is
   * in the ledger, whatever happened to the other positions.
   */
  lemma {:induction false} RunRecordsCleanPositions(codes: LegCodes, accountId: int, deals: seq<RawDeal>, order: seq<int>,
                                                    ids0: set<string>, faults: map<int, Fault>, k: nat)
    requires k < |order| && IsClosed(codes, deals, order[k]) && order[k] !in faults
    ensures IdOf(codes, deals, order[k]) in ids0 + Ids(Run(codes, accountId, deals, order, ids0, faults).inserted)
  {
    var t := Run(codes, accountId, deals, order[..k], ids0, faults);
    var p := order[k];
    var ids := ids0 + Ids(t.inserted);
    var o := Decide(codes, accountId, p, DealsOf(deals, p), ids, faults);
    RunStep(codes, accountId, deals, order, k, ids0, faults);
    DecideSpec(codes, accountId, p, DealsOf(deals, p), ids, faults);
    var next := Run(codes, accountId, deals, order[..k + 1], ids0, faults);
    assert next == Record(t, o);
    assert o.Duplicate? || o.Inserted?;
    if o.Inserted? {
      var ins := t.inserted + [o.row];
      assert ins[..|ins| - 1] == t.inserted;
      assert next.inserted == ins;
      assert IdOf(codes, deals, p) in Ids(next.inserted);
    } else {
      assert IdOf(codes, deals, p) in ids;
      assert next.inserted == t.inserted;
    }
    RunGrows(codes, accountId, deals, order, k + 1, ids0, faults);
  }

  /**
   * Re-running on the same deals against the ledger the first run left,
   * with no failures this time: nothing fails, every position the first run
   * inserted or skipped is skipped, and only positions that failed the first
   * time can be inserted now.
   */
  lemma {:induction false} RetryAfterRun(codes: LegCodes, accountId: int, deals: seq<RawDeal>, order: seq<int>,
                                         ids0: set<string>, faults: map<int, Fault>, ids1: set<string>)
    requires ids0 + Ids(Run(codes, accountId, deals, order, ids0, faults).inserted) <= ids1
    ensures var first := Run(codes, accountId, deals, order, ids0, faults);
      var second := Run(codes, accountId, deals, order, ids1, map[]);
      && second.errors == []
      && second.skipped >= first.synced + first.skipped
      && second.synced <= |first.errors|
      && second.synced + second.skipped == first.synced + first.skipped + |first.errors|
    decreases |order|
  {
    if order != [] {
      var init := order[..|order| - 1];
      var p := order[|order| - 1];
      RunGrows(codes, accountId, deals, order, |order| - 1, ids0, faults);
      RetryAfterRun(codes, accountId, deals, init, ids0, faults, ids1);
      var a := Run(codes, accountId, deals, init, ids0, faults);
      var b := Run(codes, accountId, deals, init, ids1, map[]);
      var group := DealsOf(deals, p);
      var o1 := Decide(codes, accountId, p, group, ids0 + Ids(a.inserted), faults);
      var o2 := Decide(codes, accountId, p, group, ids1 + Ids(b.inserted), map[]);
      DecideSpec(codes, accountId, p, group, ids0 + Ids(a.inserted), faults);
      DecideSpec(codes, accountId, p, group, ids1 + Ids(b.inserted), map[]);
      RecordEffect(a, o1);
      assert Run(codes, accountId, deals, order, ids0, faults) == Record(a, o1);
      assert Run(codes, accountId, deals, order, ids1, map[]) == Record(b, o2);
      RetryStep(a, b, o1, o2);
    }
  }

  /** One position keeps the relation of `RetryAfterRun` between the first run and the re-run. */
  lemma RetryStep(a: Tally, b: Tally, o1: Outcome, o2: Outcome)
    requires b.errors == [] && b.skipped >= a.synced + a.skipped && b.synced <= |a.errors|
    requires b.synced + b.skipped == a.synced + a.skipped + |a.errors|
    requires !o2.Failed? && (o1.Open? <==> o2.Open?)
    requires o1.Duplicate? || o1.Inserted? ==> o2.Duplicate?
    ensures var a1, b1 := Record(a, o1), Record(b, o2);
      && b1.errors == [] && b1.skipped >= a1.synced + a1.skipped && b1.synced <= |a1.errors|
      && b1.synced + b1.skipped == a1.synced + a1.skipped + |a1.errors|
  {
  }

  /**
   * Idempotence: with no failures, a second run on the same deals against
   * the updated ledger inserts nothing and skips every position the first
   * run inserted or skipped; against a ledger that had none of them,
   * `skipped` of the second run equals `synced` of the first.
   */
  lemma Idempotent(codes: LegCodes, accountId: int, deals: seq<RawDeal>, ids0: set<string>)
    ensures var first := Reconcile(codes, accountId, deals, ids0, map[]);
      var second := Reconcile(codes, accountId, deals, ids0 + Ids(first.inserted), map[]);
      && first.errors == [] && second.errors == []
      && second.synced == 0 && second.inserted == []
      && second.skipped == first.synced + first.skipped
  {
    var order := Positions(deals);
    NoFaultsNoErrors(codes, accountId, deals, order, ids0);
    var first := Run(codes, accountId, deals, order, ids0, map[]);
    RetryAfterRun(codes, accountId, deals, order, ids0, map[], ids0 + Ids(first.inserted));
    var second := Run(codes, accountId, deals, order, ids0 + Ids(first.inserted), map[]);
    RunCounts(codes, accountId, deals, order, ids0 + Ids(first.inserted), map[]);
  }

  lemma {:induction false} NoFaultsNoErrors(codes: LegCodes, accountId: int, deals: seq<RawDeal>, order: seq<int>, ids0: set<string>)
    ensures Run(codes, accountId, deals, order, ids0, map[]).errors == []
    decreases |order|
  {
    if order != [] {
      NoFaultsNoErrors(codes, accountId, deals, order[..|order| - 1], ids0);
    }
  }

  /** Every error names a position that had a fault, with the exception text of that fault. */
  lemma {:induction false} ErrorsNameTheirPosition(codes: LegCodes, accountId: int, deals: seq<RawDeal>, order: seq<int>,
                                                   ids0: set<string>, faults: map<int, Fault>)
    ensures forall e :: e in Run(codes, accountId, deals, order, ids0, faults).errors ==>
      exists p :: p in faults && e == ErrorText(p, faults[p].reason)
    decreases |order|
  {
    if order != [] {
      ErrorsNameTheirPosition(codes, accountId, deals, order[..|order| - 1], ids0, faults);
    }
  }

  // ---------------------------------------------------------------- worked scenarios

  function Leg(positionId: int, entry: int, time: int, ticket: int): RawDeal {
    RawDeal(Some(ticket), Some(positionId), Some(entry), Some(0), Some("EURUSD"), Some(0.1), Some(5.0), Some(time))
  }

  /** A fetch whose only position is `p` amounts to that one position's outcome. */
  lemma OnePosition(codes: LegCodes, accountId: int, deals: seq<RawDeal>, p: int, ids0: set<string>, faults: map<int, Fault>)
    requires Positions(deals) == [p]
    ensures Reconcile(codes, accountId, deals, ids0, faults) == Record(NoTally, Decide(codes, accountId, p, DealsOf(deals, p), ids0, faults))
  {
    var order := Positions(deals);
    assert order[..|order| - 1] == [] && order[|order| - 1] == p;
    var t := Run(codes, accountId, deals, order[..|order| - 1], ids0, faults);
    assert t == NoTally && Ids(t.inserted) == {};
    assert ids0 + Ids(t.inserted) == ids0;
  }

  /** A single deal of a non-zero position `p` groups as that one position. */
  lemma OneDeal(deals: seq<RawDeal>, p: int)
    requires |deals| == 1 && PositionOf(deals[0]) == p && p != 0
    ensures Positions(deals) == [p] && DealsOf(deals, p) == deals
  {
    assert deals[..0] == [];
  }

  /** Two deals of the same non-zero position `p` group as that one position. */
  lemma TwoDeals(deals: seq<RawDeal>, p: int)
    requires |deals| == 2 && PositionOf(deals[0]) == p && PositionOf(deals[1]) == p && p != 0
    ensures Positions(deals) == [p] && DealsOf(deals, p) == deals
  {
    OneDeal(deals[..1], p);
    assert deals[..1] + [deals[1]] == deals;
  }

  /** An entry leg at 100 and an exit leg at 200 with ticket 77 make one trade `mt5_5_77` from 100 to 200. */
  lemma ClosedPositionScenario(accountId: int, deals: seq<RawDeal>)
    requires deals == [Leg(5, 1, 100, 76), Leg(5, 0, 200, 77)]
    ensures var t := Reconcile(SourceLegCodes, accountId, deals, {}, map[]);
      && t.synced == 1 && t.skipped == 0 && t.errors == [] && |t.inserted| == 1
      && t.inserted[0].terminalTradeId == "mt5_5_77"
      && t.inserted[0].entryDate == 100 && t.inserted[0].exitDate == 200
  {
    TwoDeals(deals, 5);
    OnePosition(SourceLegCodes, accountId, deals, 5, {}, map[]);
    assert deals[..1][..0] == [];
    assert LastWithEntry(deals, 0) == Some(deals[1]);
    assert LastWithEntry(deals, 1) == Some(deals[0]);
    assert IntToString(5) == "5" && IntToString(77) == "77";
  }

  /** A lone exit leg at 300 with ticket 88 makes one trade whose entry time is an hour earlier. */
  lemma ExitOnlyScenario(accountId: int, deals: seq<RawDeal>)
    requires deals == [Leg(6, 0, 300, 88)]
    ensures var t := Reconcile(SourceLegCodes, accountId, deals, {}, map[]);
      && t.synced == 1 && |t.inserted| == 1
      && t.inserted[0].terminalTradeId == "mt5_6_88"
      && t.inserted[0].entryDate == 300 - 3600 && t.inserted[0].exitDate == 300
  {
    OneDeal(deals, 6);
    OnePosition(SourceLegCodes, accountId, deals, 6, {}, map[]);
    assert deals[..0] == [];
    assert LastWithEntry(deals, 0) == Some(deals[0]);
    assert LastWithEntry(deals, 1) == None;
    assert IntToString(6) == "6" && IntToString(88) == "88";
  }

  /** A position with only an entry leg is still open and makes no trade. */
  lemma OpenPositionScenario(accountId: int, deals: seq<RawDeal>)
    requires deals == [Leg(7, 1, 100, 90)]
    ensures Reconcile(SourceLegCodes, accountId, deals, {}, map[]) == NoTally
  {
    OneDeal(deals, 7);
    OnePosition(SourceLegCodes, accountId, deals, 7, {}, map[]);
    assert deals[..0] == [];
    assert LastWithEntry(deals, 0) == None;
  }

  /** The grouping of three deals of three different positions. */
  lemma ThreePositions(deals: seq<RawDeal>)
    requires deals == [Leg(1, 0, 100, 11), Leg(2, 0, 200, 12), Leg(3, 0, 300, 13)]
    ensures Positions(deals) == [1, 2, 3]
    ensures DealsOf(deals, 1) == [deals[0]] && DealsOf(deals, 2) == [deals[1]] && DealsOf(deals, 3) == [deals[2]]
  {
    assert deals[..2][..1] == deals[..1] && deals[..1][..0] == [];
    assert deals[..1] == [deals[0]] && PositionOf(deals[0]) == 1;
    assert DealsOf(deals[..1][..0], 3) == [];
    assert DealsOf(deals[..1], 3) == [];
    assert DealsOf(deals[..1], 1) == [deals[0]] && DealsOf(deals[..1], 2) == [];
    assert DealsOf(deals[..2], 1) == [deals[0]] && DealsOf(deals[..2], 2) == [deals[1]] && DealsOf(deals[..2], 3) == [];
    assert Positions(deals[..1]) == [1];
    assert Positions(deals[..2]) == [1, 2];
  }

  /** Three closed positions, the second of whose insert fails: two trades are synced and one error names position 2. */
  lemma FaultIsolationScenario(accountId: int, deals: seq<RawDeal>, faults: map<int, Fault>)
    requires deals == [Leg(1, 0, 100, 11), Leg(2, 0, 200, 12), Leg(3, 0, 300, 13)]
    requires faults == map[2 := InsertFails("insert failed")]
    ensures var t := Reconcile(SourceLegCodes, accountId, deals, {}, faults);
      && t.synced == 2 && t.skipped == 0 && |t.inserted| == 2
      && t.errors == [ErrorText(2, "insert failed")]
  {
    ThreePositions(deals);
    var codes, order := SourceLegCodes, Positions(deals);
    assert order[..3] == order;
    var t2 := FaultIsolationPrefix(accountId, deals, faults, order);
    var o3 := Decide(codes, accountId, 3, [deals[2]], {} + Ids(t2.inserted), faults);
    assert LastWithEntry([deals[2]], 0) == Some(deals[2]);
    if TradeId(3, 13) == TradeId(1, 11) { TradeIdInjective(3, 13, 1, 11); }
    DecideSpec(codes, accountId, 3, [deals[2]], {} + Ids(t2.inserted), faults);
    assert o3.Inserted?;
    RecordEffect(t2, o3);
    RunAdvance(codes, accountId, deals, order, 2, {}, faults, t2, Record(t2, o3));
  }

  /** The first two positions of `FaultIsolationScenario`: one trade synced, then one error. */
  lemma FaultIsolationPrefix(accountId: int, deals: seq<RawDeal>, faults: map<int, Fault>, order: seq<int>) returns (t2: Tally)
    requires deals == [Leg(1, 0, 100, 11), Leg(2, 0, 200, 12), Leg(3, 0, 300, 13)]
    requires faults == map[2 := InsertFails("insert failed")] && order == [1, 2, 3]
    ensures t2 == Run(SourceLegCodes, accountId, deals, order[..2], {}, faults)
    ensures t2.synced == 1 && t2.skipped == 0 && t2.errors == [ErrorText(2, "insert failed")]
    ensures |t2.inserted| == 1 && Ids(t2.inserted) == {TradeId(1, 11)}
  {
    var codes := SourceLegCodes;
    ThreePositions(deals);
    var t0 := Run(codes, accountId, deals, order[..0], {}, faults);
    assert order[..0] == [] && t0 == NoTally;
    var o1 := Decide(codes, accountId, 1, [deals[0]], {}, faults);
    assert LastWithEntry([deals[0]], 0) == Some(deals[0]);
    DecideSpec(codes, accountId, 1, [deals[0]], {}, faults);
    RecordEffect(t0, o1);
    RunAdvance(codes, accountId, deals, order, 0, {}, faults, t0, Record(t0, o1));
    var t1 := Record(t0, o1);
    assert Ids(t1.inserted) == {TradeId(1, 11)};
    var o2 := Decide(codes, accountId, 2, [deals[1]], {} + Ids(t1.inserted), faults);
    assert LastWithEntry([deals[1]], 0) == Some(deals[1]);
    if TradeId(2, 12) == TradeId(1, 11) { TradeIdInjective(2, 12, 1, 11); }
    DecideSpec(codes, accountId, 2, [deals[1]], {} + Ids(t1.inserted), faults);
    RunAdvance(codes, accountId, deals, order, 1, {}, faults, t1, Record(t1, o2));
    t2 := Record(t1, o2);
  }

  /** One more position: the run over `order[..k + 1]` is `next` when `next` records that position's outcome on top of the run over `order[..k]`. */
  lemma RunAdvance(codes: LegCodes, accountId: int, deals: seq<RawDeal>, order: seq<int>, k: nat,
                   ids0: set<string>, faults: map<int, Fault>, tally: Tally, next: Tally)
    requires k < |order| && Run(codes, accountId, deals, order[..k], ids0, faults) == tally
    requires next == Record(tally, Decide(codes, accountId, order[k], DealsOf(deals, order[k]), ids0 + Ids(tally.inserted), faults))
    ensures Run(codes, accountId, deals, order[..k + 1], ids0, faults) == next
  {
    RunStep(codes, accountId, deals, order, k, ids0, faults);
  }

  // ---------------------------------------------------------------- the terminal's entry codes

  /**
   * MetaTrader 5 numbers a deal's direction (ENUM_DEAL_ENTRY) as
   * DEAL_ENTRY_IN = 0 for the deal that opens a position and
   * DEAL_ENTRY_OUT = 1 for the deal that closes it.
   */
  const DealEntryIn := 0
  const DealEntryOut := 1
  const TerminalLegCodes := LegCodes(DealEntryOut, DealEntryIn)

  /**
   * As written, a position the terminal reports with only its opening deal
   * (still open) is recorded as a completed trade, timed at its opening.
   */
  lemma AsWrittenRecordsOpenPosition(accountId: int, deals: seq<RawDeal>)
    requires deals == [Leg(9, DealEntryIn, 100, 41)]
    ensures var t := Reconcile(SourceLegCodes, accountId, deals, {}, map[]);
      t.synced == 1 && |t.inserted| == 1 && t.inserted[0].exitDate == 100
  {
    OneDeal(deals, 9);
    OnePosition(SourceLegCodes, accountId, deals, 9, {}, map[]);
    assert LastWithEntry(deals, 0) == Some(deals[0]);
  }

  /**
   * As written, a position opened at 100 and closed at 200 is recorded with
   * its exit date before its entry date, under the opening deal's ticket.
   */
  lemma AsWrittenSwapsDates(accountId: int, deals: seq<RawDeal>)
    requires deals == [Leg(9, DealEntryIn, 100, 41), Leg(9, DealEntryOut, 200, 42)]
    ensures var t := Reconcile(SourceLegCodes, accountId, deals, {}, map[]);
      && |t.inserted| == 1 && t.inserted[0].exitDate == 100 && t.inserted[0].entryDate == 200
      && t.inserted[0].exitDate < t.inserted[0].entryDate
  {
    TwoDeals(deals, 9);
    OnePosition(SourceLegCodes, accountId, deals, 9, {}, map[]);
    assert deals[..1][..0] == [];
    assert LastWithEntry(deals, 0) == Some(deals[0]);
    assert LastWithEntry(deals, 1) == Some(deals[1]);
  }

  /** With the terminal's codes the same position gets entry date 100 and exit date 200, keyed by the closing ticket. */
  lemma TerminalCodesKeepDates(accountId: int, deals: seq<RawDeal>)
    requires deals == [Leg(9, DealEntryIn, 100, 41), Leg(9, DealEntryOut, 200, 42)]
    ensures var t := Reconcile(TerminalLegCodes, accountId, deals, {}, map[]);
      && |t.inserted| == 1 && t.inserted[0].entryDate == 100 && t.inserted[0].exitDate == 200
      && t.inserted[0].terminalTradeId == TradeId(9, 42)
  {
    TwoDeals(deals, 9);
    OnePosition(TerminalLegCodes, accountId, deals, 9, {}, map[]);
    assert deals[..1][..0] == [];
    assert LastWithEntry(deals, DealEntryOut) == Some(deals[1]);
    assert LastWithEntry(deals, DealEntryIn) == Some(deals[0]);
  }

  /** With the terminal's codes, deals none of which closes a position never make a trade. */
  lemma {:induction false} TerminalCodesSkipOpenPositions(accountId: int, deals: seq<RawDeal>, order: seq<int>,
                                                          ids0: set<string>, faults: map<int, Fault>)
    requires forall i :: 0 <= i < |deals| ==> deals[i].entry != Some(DealEntryOut)
    ensures Run(TerminalLegCodes, accountId, deals, order, ids0, faults) == NoTally
    decreases |order|
  {
    if order != [] {
      var p := order[|order| - 1];
      TerminalCodesSkipOpenPositions(accountId, deals, order[..|order| - 1], ids0, faults);
      DealsOfSpec(deals, p);
      var group := DealsOf(deals, p);
      forall j | 0 <= j < |group| ensures group[j].entry != Some(DealEntryOut) {
        assert group[j] in deals;
      }
      LastWithEntrySpec(group, DealEntryOut);
    }
  }
}
