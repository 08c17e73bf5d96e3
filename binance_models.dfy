/**
 * The Binance service's data model: the order book as the depth endpoint
 * sends it and MarketStats with its two computed properties, Spread and
 * SpreadPercentage.
 */
module BinanceModels {
  import opened Stats

  /** Response of the depth endpoint; price levels stay strings until the calculator parses them. */
  datatype OrderBookData = OrderBookData(lastUpdateId: int, bids: Levels, asks: Levels)
  {
    /**
     * Structural validity of a book. The method is called but not defined in
     * the service's sources; a book is taken to be valid when both sides have
     * at least one level.
     */
    predicate IsValid()
    {
      |bids| > 0 && |asks| > 0
    }
  }

  /** MarketStats without its timestamp. */
  datatype MarketStats = MarketStats(
    symbol: string,
    currentPrice: real,
    bestBidPrice: real,
    bestAskPrice: real,
    bidVolume: real,
    askVolume: real,
    topBids: seq<OrderBookEntry>,
    topAsks: seq<OrderBookEntry>)
  {
    /** Best ask minus best bid, or 0 unless both are positive; never clamped at 0. */
    function Spread(): real
    {
      if bestAskPrice > 0.0 && bestBidPrice > 0.0 then bestAskPrice - bestBidPrice else 0.0
    }

    /** Spread as a percentage of the current price, or 0 unless that price is positive. */
    function SpreadPercentage(): real
    {
      if currentPrice > 0.0 then Spread() / currentPrice * 100.0 else 0.0
    }
  }

  /** `new MarketStats()`: empty symbol, all amounts 0, no entries. */
  const DefaultStats := MarketStats("", 0.0, 0.0, 0.0, 0.0, 0.0, [], [])

  /** Either best price missing (0) or negative: no spread and no spread percentage. */
  lemma SpreadZeroUnlessBothSides(s: MarketStats)
    requires s.bestBidPrice <= 0.0 || s.bestAskPrice <= 0.0
    ensures s.Spread() == 0.0 && s.SpreadPercentage() == 0.0
  {
  }

  /** With both best prices positive the spread is their difference, negative for a crossed book. */
  lemma SpreadNotClamped(s: MarketStats)
    requires s.bestBidPrice > 0.0 && s.bestAskPrice > 0.0
    ensures s.Spread() == s.bestAskPrice - s.bestBidPrice
    ensures s.bestAskPrice < s.bestBidPrice ==> s.Spread() < 0.0
  {
  }

  /**
   * SpreadPercentage undoes to the spread at a positive current price, is 0
   * otherwise, and is 0 whenever the spread is.
   */
  lemma SpreadPercentageGuard(s: MarketStats)
    ensures s.currentPrice > 0.0 ==> s.SpreadPercentage() * s.currentPrice / 100.0 == s.Spread()
    ensures s.currentPrice <= 0.0 ==> s.SpreadPercentage() == 0.0
    ensures s.Spread() == 0.0 ==> s.SpreadPercentage() == 0.0
  {
  }
}
