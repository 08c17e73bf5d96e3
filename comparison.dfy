/**
 * ComparisonServices: asks both exchange services for a price (or market
 * statistics) of a symbol and reports the difference and which exchange to
 * recommend. The replies of the two services are parameters: each is either
 * no answer at all or a body, read whatever the HTTP status, that decodes to
 * an ApiResponse envelope.
 */
module Comparison {
  import opened Base
  import opened Stats
  import opened CacheAside
  import BinanceModels
  import BybitModels
  import Bybit

  /** ApiResponse<T> without its error text and timestamp. */
  datatype ApiResponse<T> = ApiResponse(success: bool, data: T)

  /** A service's answer: GetAsync threw, or the body that was read. */
  datatype Reply<T> = Unreachable | Body(json: Json<ApiResponse<T>>)

  /** The comparison service's own MarketStats: the fields it reads from either service's JSON. */
  datatype StatsView = StatsView(
    currentPrice: real,
    bestBidPrice: real,
    bestAskPrice: real,
    spread: real,
    topBids: seq<OrderBookEntry>,
    topAsks: seq<OrderBookEntry>)

  /** `new MarketStats()`. */
  const EmptyStats := StatsView(0.0, 0.0, 0.0, 0.0, [], [])

  /** ComparisonResult without its timestamp. */
  datatype ComparisonResult = ComparisonResult(
    binancePrice: real,
    bybitPrice: real,
    differenceAbsolute: real,
    differencePercentage: real,
    recommendedExchange: string,
    binanceStats: StatsView,
    bybitStats: StatsView)

  /** The exception a comparison rethrows. */
  datatype ComparisonError =
    | ServiceUnreachable(exchange: Exchange)   // the awaited GetAsync of that service threw
    | UnreadableBody(exchange: Exchange)       // the body is not JSON of the envelope's shape
    | NullDereference                          // a null envelope or null statistics was read
    | PricesUnavailable                        // an envelope with Success = false

  /**
   * The two envelopes' data, or the first failure in the order the code meets
   * them: both transports (Binance first), then both deserialisations, then
   * the success gate, which reads Binance's envelope before Bybit's.
   */
  function Envelopes<T>(binance: Reply<T>, bybit: Reply<T>): (r: Result<(T, T), ComparisonError>)
    ensures r.Ok? <==> (binance.Body? && binance.json.Document? && binance.json.doc.success
                        && bybit.Body? && bybit.json.Document? && bybit.json.doc.success)
    ensures r.Ok? ==> r.value == (binance.json.doc.data, bybit.json.doc.data)
    ensures binance.Unreachable? ==> r == Err(ServiceUnreachable(Exchange.Binance))
    ensures binance.Body? && bybit.Unreachable? ==> r == Err(ServiceUnreachable(Exchange.Bybit))
    ensures binance.Body? && bybit.Body? && binance.json.Malformed? ==> r == Err(UnreadableBody(Exchange.Binance))
  {
    if binance.Unreachable? then Err(ServiceUnreachable(Exchange.Binance))
    else if bybit.Unreachable? then Err(ServiceUnreachable(Exchange.Bybit))
    else if binance.json.Malformed? then Err(UnreadableBody(Exchange.Binance))
    else if bybit.json.Malformed? then Err(UnreadableBody(Exchange.Bybit))
    else if binance.json.Null? then Err(NullDereference)
    else if !binance.json.doc.success then Err(PricesUnavailable)
    else if bybit.json.Null? then Err(NullDereference)
    else if !bybit.json.doc.success then Err(PricesUnavailable)
    else Ok((binance.json.doc.data, bybit.json.doc.data))
  }

  /** The percentage is taken relative to Binance's price, or to 1 when that price is 0. */
  function Divisor(binancePrice: real): real
  {
    if binancePrice != 0.0 then binancePrice else 1.0
  }

  function Recommend(differencePercentage: real): string
  {
    if differencePercentage > 0.0 then "Bybit" else "Binance"
  }

  /** The arithmetic both comparisons share. */
  function Compare(binancePrice: real, bybitPrice: real, binanceStats: StatsView, bybitStats: StatsView): ComparisonResult
  {
    var differenceAbsolute := bybitPrice - binancePrice;
    var differencePercentage := differenceAbsolute / Divisor(binancePrice) * 100.0;
    ComparisonResult(binancePrice, bybitPrice, differenceAbsolute, differencePercentage,
      Recommend(differencePercentage), binanceStats, bybitStats)
  }

  /** ComparePricesAsync: the prices' comparison, with empty statistics. */
  function ComparePrices(binance: Reply<real>, bybit: Reply<real>): (r: Result<ComparisonResult, ComparisonError>)
    ensures r.Ok? <==> Envelopes(binance, bybit).Ok?
    ensures r.Ok? ==>
      && r.value.binancePrice == binance.json.doc.data
      && r.value.bybitPrice == bybit.json.doc.data
      && r.value.binanceStats == EmptyStats && r.value.bybitStats == EmptyStats
    ensures r.Err? ==> r.error == Envelopes(binance, bybit).error
  {
    match Envelopes(binance, bybit)
    case Err(e) => Err(e)
    case Ok((b, y)) => Ok(Compare(b, y, EmptyStats, EmptyStats))
  }

  /**
   * CompareMarketStatsAsync: the comparison of the two current prices, carrying
   * both statistics. Null statistics pass the gate and are then dereferenced.
   */
  function CompareMarketStats(binance: Reply<Option<StatsView>>, bybit: Reply<Option<StatsView>>): (r: Result<ComparisonResult, ComparisonError>)
    ensures r.Ok? <==> Envelopes(binance, bybit).Ok? && binance.json.doc.data.Some? && bybit.json.doc.data.Some?
    ensures r.Ok? ==>
      && r.value.binanceStats == binance.json.doc.data.value
      && r.value.bybitStats == bybit.json.doc.data.value
      && r.value.binancePrice == r.value.binanceStats.currentPrice
      && r.value.bybitPrice == r.value.bybitStats.currentPrice
    ensures Envelopes(binance, bybit).Err? ==> r == Err(Envelopes(binance, bybit).error)
  {
    match Envelopes(binance, bybit)
    case Err(e) => Err(e)
    case Ok((b, y)) =>
      if b.None? || y.None? then Err(NullDereference)
      else Ok(Compare(b.value.currentPrice, y.value.currentPrice, b.value, y.value))
  }

  /** How Binance's MarketStats reads here: its Spread is a computed property and is serialised with the rest. */
  function BinanceView(s: BinanceModels.MarketStats): StatsView
  {
    StatsView(s.currentPrice, s.bestBidPrice, s.bestAskPrice, s.Spread(), s.topBids, s.topAsks)
  }

  /** How Bybit's MarketStats reads here: its stored spread. */
  function BybitView(s: BybitModels.MarketStats): StatsView
  {
    StatsView(s.currentPrice, s.bestBidPrice, s.bestAskPrice, s.spread, s.topBids, s.topAsks)
  }

  /**
   * The difference is Bybit's price minus Binance's; the percentage is that
   * difference relative to Binance's price, or the difference times 100 when
   * Binance's price is 0.
   */
  lemma DifferenceAndPercentage(binancePrice: real, bybitPrice: real, bs: StatsView, ys: StatsView)
    ensures var r := Compare(binancePrice, bybitPrice, bs, ys);
      r.binancePrice == binancePrice && r.bybitPrice == bybitPrice
      && r.binancePrice + r.differenceAbsolute == r.bybitPrice
    ensures var r := Compare(binancePrice, bybitPrice, bs, ys);
      binancePrice != 0.0 ==> r.differencePercentage * binancePrice == 100.0 * (bybitPrice - binancePrice)
    ensures var r := Compare(binancePrice, bybitPrice, bs, ys);
      binancePrice == 0.0 ==> r.differencePercentage == 100.0 * bybitPrice
  {
    var d := bybitPrice - binancePrice;
    if binancePrice != 0.0 {
      assert d / binancePrice * 100.0 * binancePrice == 100.0 * d;
    }
  }

  /**
   * The recommendation is "Bybit" exactly when the percentage is positive; for a
   * positive Binance price that is exactly when Bybit's price is higher, for a
   * zero Binance price when Bybit's is positive, and for a negative one the
   * comparison is reversed.
   */
  lemma RecommendationRule(binancePrice: real, bybitPrice: real, bs: StatsView, ys: StatsView)
    ensures var r := Compare(binancePrice, bybitPrice, bs, ys);
      (r.recommendedExchange == "Bybit" <==> r.differencePercentage > 0.0)
      && (r.recommendedExchange != "Bybit" ==> r.recommendedExchange == "Binance")
    ensures binancePrice > 0.0 ==>
      (Compare(binancePrice, bybitPrice, bs, ys).recommendedExchange == "Bybit" <==> bybitPrice > binancePrice)
    ensures binancePrice == 0.0 ==>
      (Compare(binancePrice, bybitPrice, bs, ys).recommendedExchange == "Bybit" <==> bybitPrice > 0.0)
    ensures binancePrice < 0.0 ==>
      (Compare(binancePrice, bybitPrice, bs, ys).recommendedExchange == "Bybit" <==> bybitPrice < binancePrice)
  {
    var d := bybitPrice - binancePrice;
    var p := d / Divisor(binancePrice) * 100.0;
    assert "Binance" != "Bybit" by {
      assert "Binance"[1] != "Bybit"[1];
    }
    if binancePrice > 0.0 {
      assert p * binancePrice == 100.0 * d;
      assert p > 0.0 <==> d > 0.0;
    } else if binancePrice < 0.0 {
      assert p * binancePrice == 100.0 * d;
      assert p > 0.0 <==> d < 0.0;
    }
  }

  /** Equal prices give no difference and recommend Binance. */
  lemma EqualPricesRecommendBinance(price: real, bs: StatsView, ys: StatsView)
    ensures var r := Compare(price, price, bs, ys);
      r.differenceAbsolute == 0.0 && r.differencePercentage == 0.0 && r.recommendedExchange == "Binance"
  {
  }

  /**
   * For two positive, different prices, swapping the exchanges swaps the
   * recommendation: whichever is dearer is recommended either way round.
   */
  lemma SwapFlipsRecommendation(a: real, b: real, bs: StatsView, ys: StatsView)
    requires a > 0.0 && b > 0.0 && a != b
    ensures Compare(a, b, bs, ys).recommendedExchange == "Bybit"
      <==> Compare(b, a, ys, bs).recommendedExchange == "Binance"
  {
    RecommendationRule(a, b, bs, ys);
    RecommendationRule(b, a, ys, bs);
    assert "Binance" != "Bybit" by { assert "Binance"[1] != "Bybit"[1]; }
  }

  /** 100.00 on Binance against 101.50 on Bybit: 1.50 apart, 1.5 per cent, recommend Bybit. */
  lemma ExamplePriceComparison()
    ensures ComparePrices(Body(Document(ApiResponse(true, 100.0))), Body(Document(ApiResponse(true, 101.5))))
      == Ok(ComparisonResult(100.0, 101.5, 1.5, 1.5, "Bybit", EmptyStats, EmptyStats))
  {
  }

  /** A Binance price of 0 against 5 on Bybit: the divisor is 1, so 500 per cent. */
  lemma ExampleZeroBinancePrice()
    ensures ComparePrices(Body(Document(ApiResponse(true, 0.0))), Body(Document(ApiResponse(true, 5.0))))
      == Ok(ComparisonResult(0.0, 5.0, 5.0, 500.0, "Bybit", EmptyStats, EmptyStats))
  {
  }

  /** An unsuccessful envelope from either service fails the comparison, whatever the other says. */
  lemma UnsuccessfulEnvelopeFails<T>(binance: Reply<T>, bybit: Reply<T>, failed: T)
    requires binance == Body(Document(ApiResponse(false, failed))) || bybit == Body(Document(ApiResponse(false, failed)))
    ensures Envelopes(binance, bybit).Err?
    ensures binance == Body(Document(ApiResponse(false, failed))) && bybit.Body? && bybit.json.Document? ==>
      Envelopes(binance, bybit) == Err(PricesUnavailable)
  {
  }

  /**
   * Compared market statistics carry Binance's spread as its MarketStats.Spread
   * computes it, and Bybit's as the 0 that Bybit's CalculateMarketStats stores,
   * whatever its book.
   */
  lemma ComparedSpreads(b: BinanceModels.MarketStats, price: real, book: BybitModels.OrderBookData,
                        parse: string -> Option<real>)
    requires Bybit.CalculateMarketStats(price, book, parse).Some?
    ensures var y := Bybit.CalculateMarketStats(price, book, parse).value;
      var r := CompareMarketStats(Body(Document(ApiResponse(true, Some(BinanceView(b))))),
                                  Body(Document(ApiResponse(true, Some(BybitView(y))))));
      && r.Ok?
      && r.value.bybitStats.spread == 0.0
      && r.value.binanceStats.spread == b.Spread()
      && (b.bestBidPrice > 0.0 && b.bestAskPrice > 0.0 ==>
           r.value.binanceStats.spread == b.bestAskPrice - b.bestBidPrice)
      && (b.bestBidPrice <= 0.0 || b.bestAskPrice <= 0.0 ==> r.value.binanceStats.spread == 0.0)
      && r.value.binancePrice == b.currentPrice && r.value.bybitPrice == price
  {
  }
}
