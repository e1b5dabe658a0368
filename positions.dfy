/** The fx_positions table row shared by the inventory, quote and risk stages. */
module Positions {
  import opened Wrappers
  import opened Values

  /**
   One position row. The REST positions carry the first six columns; the
   inventory enrichment adds the streamer symbols, the strike price and the
   contract size (missing until a join supplies them).
   */
  datatype Position = Position(
    symbol: string,
    underlyingSymbol: string,
    instrumentType: string,
    quantityDirection: string,
    quantity: Value,
    expiresAt: Value,
    streamerSymbol: Option<string>,
    optionStreamerSymbol: Option<string>,
    strikePrice: Value,
    contractSize: Value)

  function UnderlyingOf(p: Position): string { p.underlyingSymbol }
}
