/**
 * The Bybit v5 market replies as the deserialiser produces them, and the
 * service's own order-book and statistics records. A JSON null or an absent
 * property is None; `retCode` is an int and reads as 0 when absent.
 */
module BybitModels {
  import opened Base
  import opened Stats

  datatype TickerItem = TickerItem(lastPrice: Option<string>, symbol: Option<string>)

  /** `list` may hold null elements. */
  datatype TickerResult = TickerResult(list: Option<seq<Option<TickerItem>>>)

  datatype TickerResponse = TickerResponse(retCode: int, retMsg: Option<string>, result: Option<TickerResult>)

  datatype OrderBookResult = OrderBookResult(asks: Option<Levels>, bids: Option<Levels>)

  datatype OrderBookResponse = OrderBookResponse(retCode: int, retMsg: Option<string>, result: Option<OrderBookResult>)

  datatype OrderBookData = OrderBookData(bids: Levels, asks: Levels)
  {
    /** Not defined in the service's sources; taken, as for Binance, to mean both sides are non-empty. */
    predicate IsValid()
    {
      |bids| > 0 && |asks| > 0
    }
  }

  /**
   * Bybit's MarketStats: a stored `spread` that nothing assigns, so it stays 0,
   * and no symbol property.
   */
  datatype MarketStats = MarketStats(
    currentPrice: real,
    bestBidPrice: real,
    bestAskPrice: real,
    bidVolume: real,
    askVolume: real,
    spread: real,
    topBids: seq<OrderBookEntry>,
    topAsks: seq<OrderBookEntry>)
}
