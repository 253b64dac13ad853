/**
 * One deal record as the MetaTrader 5 terminal reports it (`TradeDeal._asdict()`).
 * Every field the code reads with `deal.get(key, default)` is optional: `None`
 * stands for a missing key, and the accessors below apply the default the
 * backend uses.
 */
module Deals {
  import opened Common

  datatype RawDeal = RawDeal(
    ticket: Option<int>,
    positionId: Option<int>,
    entry: Option<int>,      // the terminal's entry code; read with `deal.get("entry")`, no default
    dealType: Option<int>,   // the terminal's type code; read with `deal.get("type")`, no default
    symbol: Option<string>,
    volume: Option<real>,
    profit: Option<real>,
    time: Option<int>)       // terminal time, whole seconds since the epoch

  function PositionOf(d: RawDeal): int { d.positionId.GetOr(0) }
  function TicketOf(d: RawDeal): int { d.ticket.GetOr(0) }
  function TimeOf(d: RawDeal): int { d.time.GetOr(0) }
  function SymbolOf(d: RawDeal): string { d.symbol.GetOr("") }
  function VolumeOf(d: RawDeal): real { d.volume.GetOr(0.0) }
  function ProfitOf(d: RawDeal): real { d.profit.GetOr(0.0) }

  /** The fetch window handed to the terminal: (from, to) in epoch seconds. */
  type HistoryOracle = (int, int) -> Option<seq<RawDeal>>
}
