/**
 * BybitServices: the same three cache-aside fetchers as the Binance service,
 * under "bybit:" keys, against the Bybit v5 market endpoints, plus the
 * invalidation of a symbol's entries.
 */
module Bybit {
  import opened Base
  import opened Text
  import Redis
  import opened Stats
  import opened BybitModels
  import opened CacheAside
  import Retry
  import Binance

  const PriceCacheKeyPrefix := "bybit:price:"
  const OrderBookCacheKeyPrefix := "bybit:orderbook:"
  const MarketStatsCacheKeyPrefix := "bybit:marketstats:"

  /** The depth limits the service accepts, and the one GetMarketStats and the invalidation use. */
  const MinLimit := 1
  const MaxLimit := 200
  const DefaultLimit := 30

  function PriceKey(symbol: string): string
  {
    PriceCacheKeyPrefix + ToUpper(symbol)
  }

  function OrderBookKey(symbol: string, limit: int): string
  {
    OrderBookCacheKeyPrefix + ToUpper(symbol) + ":" + IntToString(limit)
  }

  function MarketStatsKey(symbol: string): string
  {
    MarketStatsCacheKeyPrefix + ToUpper(symbol)
  }

  /** Symbols that differ only in case share their entries, and no others do. */
  lemma KeysIgnoreCase(s: string, a: int, t: string, b: int)
    ensures PriceKey(s) == PriceKey(t) <==> EqualsIgnoringCase(s, t)
    ensures MarketStatsKey(s) == MarketStatsKey(t) <==> EqualsIgnoringCase(s, t)
    ensures OrderBookKey(s, a) == OrderBookKey(t, b) <==> EqualsIgnoringCase(s, t) && a == b
  {
    PrefixCancel(PriceCacheKeyPrefix, ToUpper(s), ToUpper(t));
    PrefixCancel(MarketStatsCacheKeyPrefix, ToUpper(s), ToUpper(t));
    PrefixCancel(OrderBookCacheKeyPrefix, ToUpper(s), ToUpper(t));
    ToUpperEqualIff(s, t);
    IntToStringHasNoColon(a);
    IntToStringHasNoColon(b);
    LastColonSplit(OrderBookCacheKeyPrefix + ToUpper(s), IntToString(a), OrderBookCacheKeyPrefix + ToUpper(t), IntToString(b));
    IntToStringInjective(a, b);
  }

  /** The three kinds of key never collide. */
  lemma KeyKindsDisjoint(s: string, t: string, limit: int)
    ensures PriceKey(s) != OrderBookKey(t, limit)
    ensures PriceKey(s) != MarketStatsKey(t)
    ensures OrderBookKey(s, limit) != MarketStatsKey(t)
  {
    assert PriceKey(s)[6] == 'p';
    assert OrderBookKey(t, limit)[6] == OrderBookKey(s, limit)[6] == 'o';
    assert MarketStatsKey(t)[6] == 'm';
  }

  /** The two services can share one cache: no Bybit key is a Binance key. */
  lemma ExchangesDoNotShareKeys(s: string, t: string, a: int, b: int)
    ensures var bybit := {PriceKey(s), OrderBookKey(s, a), MarketStatsKey(s)};
      var binance := {Binance.PriceKey(t), Binance.OrderBookKey(t, b), Binance.MarketStatsKey(t)};
      bybit !! binance
  {
    assert PriceKey(s)[1] == OrderBookKey(s, a)[1] == MarketStatsKey(s)[1] == 'y';
    assert Binance.PriceKey(t)[1] == Binance.OrderBookKey(t, b)[1] == Binance.MarketStatsKey(t)[1] == 'i';
  }

  datatype CacheValue = PriceValue(price: real) | BookValue(book: OrderBookData) | StatsValue(stats: MarketStats)

  function AsPrice(v: CacheValue): Option<real> { if v.PriceValue? then Some(v.price) else None }
  function AsBook(v: CacheValue): Option<OrderBookData> { if v.BookValue? then Some(v.book) else None }
  function AsStats(v: CacheValue): Option<MarketStats> { if v.StatsValue? then Some(v.stats) else None }
  function EncodePrice(p: real): CacheValue { PriceValue(p) }
  function EncodeBook(b: OrderBookData): CacheValue { BookValue(b) }
  function EncodeStats(s: MarketStats): CacheValue { StatsValue(s) }

  function PriceSlot(symbol: string): Slot<real, CacheValue> { Slot(PriceKey(symbol), AsPrice, EncodePrice) }
  function OrderBookSlot(symbol: string, limit: int): Slot<OrderBookData, CacheValue> { Slot(OrderBookKey(symbol, limit), AsBook, EncodeBook) }

  /** Service options and the two number parsers (TryParse with NumberStyles.Float, and Parse). */
  datatype Settings = Settings(cacheDurationSeconds: int, parseFloat: string -> Option<real>, parseNumber: string -> Option<real>)

  /** The BybitApiException a fetch throws. */
  function Failure(op: Operation, symbol: string): Cause -> ApiError
  {
    c => ApiError(Bybit, op, symbol, c)
  }

  /**
   * The miss path of GetPriceAsync after the request. A null document or a
   * non-zero retCode, an empty list, and a last price that is null or does not
   * parse all give 0 without failing; a null `result` or `list`, or a null
   * first element, is dereferenced and throws.
   */
  function ReadTicker(reply: HttpReply<TickerResponse>, parse: string -> Option<real>): Fetched<real>
  {
    match TransportCause(reply)
    case Some(c) => Thrown(c)
    case None =>
      match reply.body
      case Null => Soft(0.0)
      case Document(data) =>
        if data.retCode != 0 then Soft(0.0)
        else if data.result.None? || data.result.value.list.None? then Thrown(NullReference)
        else
          var items := data.result.value.list.value;
          if |items| == 0 then Soft(0.0)
          else if items[0].None? then Thrown(NullReference)
          else
            match items[0].value.lastPrice
            case None => Soft(0.0)
            case Some(text) =>
              match parse(text)
              case Some(p) => Got(p)
              case None => Soft(0.0)
  }

  /**
   * The miss path of GetOrderBookAsync after the request: a null document or a
   * non-zero retCode is an exchange error; a null `result` is an invalid book; a
   * null side becomes an empty one, and the book must then be valid.
   */
  function ReadOrderBook(reply: HttpReply<OrderBookResponse>): Fetched<OrderBookData>
  {
    match TransportCause(reply)
    case Some(c) => Thrown(c)
    case None =>
      match reply.body
      case Null => Thrown(ExchangeRejected)
      case Document(data) =>
        if data.retCode != 0 then Thrown(ExchangeRejected)
        else
          match data.result
          case None => Thrown(InvalidOrderBook)
          case Some(res) =>
            var book := OrderBookData(
              if res.bids.Some? then res.bids.value else [],
              if res.asks.Some? then res.asks.value else []);
            if book.IsValid() then Got(book) else Thrown(InvalidOrderBook)
  }

  predicate LimitInRange(limit: int)
  {
    MinLimit <= limit <= MaxLimit
  }

  function OrderBookMiss(symbol: string, limit: int, reply: HttpReply<OrderBookResponse>): Miss<OrderBookData>
  {
    if !LimitInRange(limit) then Miss([], Thrown(LimitOutOfRange(limit)))
    else Miss([OrderBookRequest(symbol, limit)], ReadOrderBook(reply))
  }

  function PriceStep(settings: Settings, store: Redis.Store<CacheValue>, online: bool, symbol: string, reply: HttpReply<TickerResponse>): Outcome<real, CacheValue>
  {
    Step(store, online, settings.cacheDurationSeconds, PriceSlot(symbol),
      Miss([PriceRequest(symbol)], ReadTicker(reply, settings.parseFloat)), Failure(PriceFetch, symbol))
  }

  function OrderBookStep(settings: Settings, store: Redis.Store<CacheValue>, online: bool, symbol: string, limit: int, reply: HttpReply<OrderBookResponse>): Outcome<OrderBookData, CacheValue>
  {
    Step(store, online, settings.cacheDurationSeconds, OrderBookSlot(symbol, limit),
      OrderBookMiss(symbol, limit, reply), Failure(OrderBookFetch, symbol))
  }

  /**
   * CalculateMarketStats: as Binance's calculator, except that the record has no
   * symbol and its stored spread is never assigned, so it is 0.
   */
  function CalculateMarketStats(price: real, book: OrderBookData, parse: string -> Option<real>): (r: Option<MarketStats>)
    ensures r.Some? <==> ParseLevels(book.bids, parse).Some? && ParseLevels(book.asks, parse).Some?
    ensures r.Some? ==>
      && r.value.currentPrice == price
      && r.value.spread == 0.0
      && |r.value.topBids| == Min(TopDepth, |book.bids|)
      && |r.value.topAsks| == Min(TopDepth, |book.asks|)
      && Ordered(r.value.topBids, Descending)
      && Ordered(r.value.topAsks, Ascending)
      && multiset(r.value.topBids) <= multiset(ParseLevels(book.bids, parse).value)
      && multiset(r.value.topAsks) <= multiset(ParseLevels(book.asks, parse).value)
      && r.value.bestBidPrice == BestPrice(r.value.topBids)
      && r.value.bestAskPrice == BestPrice(r.value.topAsks)
      && r.value.bidVolume == SumVolume(r.value.topBids)
      && r.value.askVolume == SumVolume(r.value.topAsks)
  {
    match Summarize(book.bids, book.asks, parse)
    case None => None
    case Some(d) =>
      Some(MarketStats(price, d.bestBidPrice, d.bestAskPrice, d.bidVolume, d.askVolume, 0.0, d.topBids, d.topAsks))
  }

  /** GetMarketStatsAsync: as Binance's, against the Bybit fetchers. */
  function MarketStatsStep(settings: Settings, store: Redis.Store<CacheValue>, online: bool, symbol: string,
                           priceReply: HttpReply<TickerResponse>, bookReply: HttpReply<OrderBookResponse>): Outcome<MarketStats, CacheValue>
  {
    var hit := Redis.Lookup(store, online, MarketStatsKey(symbol), AsStats);
    if hit.Some? then Outcome(Ok(hit.value), store, [])
    else
      var p := PriceStep(settings, store, online, symbol, priceReply);
      var b := OrderBookStep(settings, p.store, online, symbol, DefaultLimit, bookReply);
      var calls := p.calls + b.calls;
      var fail := Failure(MarketStatsFetch, symbol);
      if p.result.Err? then Outcome(Err(fail(Inner(p.result.error))), b.store, calls)
      else if b.result.Err? then Outcome(Err(fail(Inner(b.result.error))), b.store, calls)
      else
        match CalculateMarketStats(p.result.value, b.result.value, settings.parseNumber)
        case None => Outcome(Err(fail(MalformedLevel)), b.store, calls)
        case Some(stats) =>
          Outcome(Ok(stats), Redis.Put(b.store, online, MarketStatsKey(symbol), EncodeStats(stats), Some(settings.cacheDurationSeconds)), calls)
  }

  /**
   * The kept levels are the top five and not merely five ordered levels: no
   * level left out ranks ahead of a kept one on either side.
   */
  lemma CalculatedTopFive(price: real, book: OrderBookData, parse: string -> Option<real>)
    requires CalculateMarketStats(price, book, parse).Some?
    ensures var s := CalculateMarketStats(price, book, parse).value;
      && IsTopOf(s.topBids, ParseLevels(book.bids, parse).value, Descending)
      && IsTopOf(s.topAsks, ParseLevels(book.asks, parse).value, Ascending)
  {
    SummaryTopFive(book.bids, book.asks, parse);
  }

  /** InvalidateCacheAsync: the price, the depth-30 book and the statistics entries of the symbol are removed. */
  function Invalidated(store: Redis.Store<CacheValue>, online: bool, symbol: string): Redis.Store<CacheValue>
  {
    var s1 := Redis.Delete(store, online, PriceKey(symbol));
    var s2 := Redis.Delete(s1, online, OrderBookKey(symbol, DefaultLimit));
    Redis.Delete(s2, online, MarketStatsKey(symbol))
  }

  /**
   * The reply cases of GetPriceAsync: which replies throw, which give the
   * uncached 0, and that a value is only returned when the first ticker's
   * last price parses.
   */
  lemma TickerReplyCases(reply: HttpReply<TickerResponse>, parse: string -> Option<real>)
    ensures var f := ReadTicker(reply, parse);
      f.Thrown? <==> (TransportCause(reply).Some? ||
        (reply.Response? && reply.body.Document? && reply.body.doc.retCode == 0 &&
          (reply.body.doc.result.None? || reply.body.doc.result.value.list.None? ||
            (|reply.body.doc.result.value.list.value| > 0 && reply.body.doc.result.value.list.value[0].None?))))
    ensures var f := ReadTicker(reply, parse);
      f.Soft? ==> f.value == 0.0
    ensures var f := ReadTicker(reply, parse);
      f.Got? ==> (reply.Response? && reply.body.Document? && reply.body.doc.retCode == 0
        && reply.body.doc.result.Some? && reply.body.doc.result.value.list.Some?
        && |reply.body.doc.result.value.list.value| > 0
        && reply.body.doc.result.value.list.value[0].Some?
        && reply.body.doc.result.value.list.value[0].value.lastPrice.Some?
        && parse(reply.body.doc.result.value.list.value[0].value.lastPrice.value) == Some(f.value))
    ensures var f := ReadTicker(reply, parse);
      (TransportCause(reply).None? && reply.body.Document? && reply.body.doc.retCode == 0
        && reply.body.doc.result.Some? && reply.body.doc.result.value.list.Some?
        && |reply.body.doc.result.value.list.value| > 0
        && reply.body.doc.result.value.list.value[0].Some?
        && reply.body.doc.result.value.list.value[0].value.lastPrice.Some?
        && parse(reply.body.doc.result.value.list.value[0].value.lastPrice.value).Some?)
      ==> f == Got(parse(reply.body.doc.result.value.list.value[0].value.lastPrice.value).value)
  {
  }

  /**
   * On a miss, the parsed last price of the first ticker is returned and cached
   * under the price key with the configured expiry.
   */
  lemma ParsedPriceIsCached(settings: Settings, store: Redis.Store<CacheValue>, online: bool, symbol: string,
                            status: int, data: TickerResponse, p: real)
    requires Redis.Lookup(store, online, PriceKey(symbol), AsPrice).None?
    requires IsSuccessStatus(status) && data.retCode == 0
    requires data.result.Some? && data.result.value.list.Some? && |data.result.value.list.value| > 0
    requires data.result.value.list.value[0].Some? && data.result.value.list.value[0].value.lastPrice.Some?
    requires settings.parseFloat(data.result.value.list.value[0].value.lastPrice.value) == Some(p)
    ensures var o := PriceStep(settings, store, online, symbol, Response(status, Document(data)));
      && o.result == Ok(p)
      && o.calls == [PriceRequest(symbol)]
      && o.store == Redis.Put(store, online, PriceKey(symbol), EncodePrice(p), Some(settings.cacheDurationSeconds))
      && (online && settings.cacheDurationSeconds > 0 ==> Redis.Lookup(o.store, online, PriceKey(symbol), AsPrice) == Some(p))
  {
    if online && settings.cacheDurationSeconds > 0 {
      Redis.GetAfterSet(store, PriceKey(symbol), EncodePrice(p), settings.cacheDurationSeconds, AsPrice, p);
    }
  }

  /**
   * A rejected ticker (non-zero retCode) is reported as price 0, while a rejected
   * depth request throws; neither is cached.
   */
  lemma RejectionIsSoftForPriceHardForBook(tickerStatus: int, bookStatus: int, ticker: TickerResponse, book: OrderBookResponse, parse: string -> Option<real>)
    requires IsSuccessStatus(tickerStatus) && IsSuccessStatus(bookStatus)
    requires ticker.retCode != 0 && book.retCode != 0
    ensures ReadTicker(Response(tickerStatus, Document(ticker)), parse) == Soft(0.0)
    ensures ReadOrderBook(Response(bookStatus, Document(book))) == Thrown(ExchangeRejected)
  {
  }

  /**
   * The reply cases of GetOrderBookAsync: a failed request throws its cause; a
   * null document or a non-zero retCode is an exchange rejection; a null
   * `result` is an invalid book; a book is accepted exactly when both sides are
   * present and non-empty, and it is then the reply's bids and asks.
   */
  lemma OrderBookReplyCases(reply: HttpReply<OrderBookResponse>)
    ensures var f := ReadOrderBook(reply);
      !f.Soft?
    ensures var f := ReadOrderBook(reply);
      TransportCause(reply).Some? ==> f == Thrown(TransportCause(reply).value)
    ensures var f := ReadOrderBook(reply);
      TransportCause(reply).None? && (reply.body.Null? || (reply.body.Document? && reply.body.doc.retCode != 0)) ==>
        f == Thrown(ExchangeRejected)
    ensures var f := ReadOrderBook(reply);
      TransportCause(reply).None? && reply.body.Document? && reply.body.doc.retCode == 0 && reply.body.doc.result.None? ==>
        f == Thrown(InvalidOrderBook)
    ensures var f := ReadOrderBook(reply);
      f.Got? <==> (TransportCause(reply).None? && reply.body.Document? && reply.body.doc.retCode == 0
        && reply.body.doc.result.Some?
        && reply.body.doc.result.value.bids.Some? && reply.body.doc.result.value.asks.Some?
        && |reply.body.doc.result.value.bids.value| > 0 && |reply.body.doc.result.value.asks.value| > 0)
    ensures var f := ReadOrderBook(reply);
      f.Got? ==> f.value == OrderBookData(reply.body.doc.result.value.bids.value, reply.body.doc.result.value.asks.value)
  {
  }

  /**
   * An in-range miss sends one depth request; an accepted book is returned and
   * cached under its own key, and a rejected one fails without writing anything.
   */
  lemma OrderBookMissOutcome(settings: Settings, store: Redis.Store<CacheValue>, online: bool, symbol: string, limit: int,
                             reply: HttpReply<OrderBookResponse>)
    requires Redis.Lookup(store, online, OrderBookKey(symbol, limit), AsBook).None?
    requires LimitInRange(limit)
    ensures var o := OrderBookStep(settings, store, online, symbol, limit, reply);
      var f := ReadOrderBook(reply);
      && o.calls == [OrderBookRequest(symbol, limit)]
      && (f.Got? ==>
            && o.result == Ok(f.value)
            && o.store == Redis.Put(store, online, OrderBookKey(symbol, limit), EncodeBook(f.value), Some(settings.cacheDurationSeconds))
            && (online && settings.cacheDurationSeconds > 0 ==>
                  Redis.Lookup(o.store, online, OrderBookKey(symbol, limit), AsBook) == Some(f.value)))
      && (f.Thrown? ==> o.result == Err(ApiError(Bybit, OrderBookFetch, symbol, f.cause)) && o.store == store)
  {
    var f := ReadOrderBook(reply);
    if f.Got? && online && settings.cacheDurationSeconds > 0 {
      Redis.GetAfterSet(store, OrderBookKey(symbol, limit), EncodeBook(f.value), settings.cacheDurationSeconds, AsBook, f.value);
    }
  }

  /** A side the exchange leaves out (null) is read as empty, which makes the book invalid. */
  lemma MissingSideInvalidatesBook(status: int, data: OrderBookResponse)
    requires IsSuccessStatus(status)
    requires data.retCode == 0 && data.result.Some?
    ensures data.result.value.bids.None? || data.result.value.asks.None? ==>
      ReadOrderBook(Response(status, Document(data))) == Thrown(InvalidOrderBook)
    ensures ReadOrderBook(Response(status, Document(data))).Got? <==>
      (data.result.value.bids.Some? && data.result.value.asks.Some?
       && |data.result.value.bids.value| > 0 && |data.result.value.asks.value| > 0)
  {
  }

  /** The depth limit is checked after the cache lookup, and only on a miss; 1..200 passes. */
  lemma LimitCheckedAfterLookup(settings: Settings, store: Redis.Store<CacheValue>, online: bool, symbol: string, limit: int, reply: HttpReply<OrderBookResponse>)
    ensures var hit := Redis.Lookup(store, online, OrderBookKey(symbol, limit), AsBook);
      var o := OrderBookStep(settings, store, online, symbol, limit, reply);
      hit.Some? ==> o == Outcome(Ok(hit.value), store, [])
    ensures var hit := Redis.Lookup(store, online, OrderBookKey(symbol, limit), AsBook);
      var o := OrderBookStep(settings, store, online, symbol, limit, reply);
      hit.None? && !LimitInRange(limit) ==>
        o == Outcome(Err(ApiError(Bybit, OrderBookFetch, symbol, LimitOutOfRange(limit))), store, [])
    ensures var hit := Redis.Lookup(store, online, OrderBookKey(symbol, limit), AsBook);
      var o := OrderBookStep(settings, store, online, symbol, limit, reply);
      hit.None? && LimitInRange(limit) ==> o.calls == [OrderBookRequest(symbol, limit)]
  {
  }

  /** Every statistics record held in the store has spread 0. */
  predicate SpreadsAreZero(store: Redis.Store<CacheValue>)
  {
    forall k | k in store && store[k].text.Json? && store[k].text.value.StatsValue? :: store[k].text.value.stats.spread == 0.0
  }

  lemma PutKeepsSpreadsZero(store: Redis.Store<CacheValue>, online: bool, key: string, v: CacheValue, expiry: Option<int>)
    requires SpreadsAreZero(store)
    requires v.StatsValue? ==> v.stats.spread == 0.0
    ensures SpreadsAreZero(Redis.Put(store, online, key, v, expiry))
  {
  }

  /** The price and book fetches of a market-stats call write no statistics record. */
  lemma FetchesKeepSpreadsZero(settings: Settings, store: Redis.Store<CacheValue>, online: bool, symbol: string,
                               priceReply: HttpReply<TickerResponse>, bookReply: HttpReply<OrderBookResponse>)
    requires SpreadsAreZero(store)
    ensures var p := PriceStep(settings, store, online, symbol, priceReply);
      SpreadsAreZero(p.store) && SpreadsAreZero(OrderBookStep(settings, p.store, online, symbol, DefaultLimit, bookReply).store)
  {
    var ttl := settings.cacheDurationSeconds;
    var p := PriceStep(settings, store, online, symbol, priceReply);
    var pm := Miss([PriceRequest(symbol)], ReadTicker(priceReply, settings.parseFloat));
    OnlySuccessIsCached(store, online, ttl, PriceSlot(symbol), pm, Failure(PriceFetch, symbol));
    if p.store != store {
      PutKeepsSpreadsZero(store, online, PriceKey(symbol), EncodePrice(pm.fetched.value), Some(ttl));
    }
    var bm := OrderBookMiss(symbol, DefaultLimit, bookReply);
    var b := OrderBookStep(settings, p.store, online, symbol, DefaultLimit, bookReply);
    OnlySuccessIsCached(p.store, online, ttl, OrderBookSlot(symbol, DefaultLimit), bm, Failure(OrderBookFetch, symbol));
    if b.store != p.store {
      PutKeepsSpreadsZero(p.store, online, OrderBookKey(symbol, DefaultLimit), EncodeBook(bm.fetched.value), Some(ttl));
    }
  }

  /**
   * Statistics of the Bybit service report no spread, whatever the book: the
   * market-stats call returns spread 0 and keeps every stored record at spread 0.
   */
  lemma StoredSpreadIsZero(settings: Settings, store: Redis.Store<CacheValue>, online: bool, symbol: string,
                           priceReply: HttpReply<TickerResponse>, bookReply: HttpReply<OrderBookResponse>)
    requires SpreadsAreZero(store)
    ensures var o := MarketStatsStep(settings, store, online, symbol, priceReply, bookReply);
      (o.result.Ok? ==> o.result.value.spread == 0.0) && SpreadsAreZero(o.store)
  {
    var ttl := settings.cacheDurationSeconds;
    var sk := MarketStatsKey(symbol);
    if Redis.Lookup(store, online, sk, AsStats).None? {
      var p := PriceStep(settings, store, online, symbol, priceReply);
      var b := OrderBookStep(settings, p.store, online, symbol, DefaultLimit, bookReply);
      FetchesKeepSpreadsZero(settings, store, online, symbol, priceReply, bookReply);
      if p.result.Ok? && b.result.Ok? {
        MarketStatsComposes(settings, store, online, symbol, priceReply, bookReply);
        var c := CalculateMarketStats(p.result.value, b.result.value, settings.parseNumber);
        if c.Some? {
          PutKeepsSpreadsZero(b.store, online, sk, EncodeStats(c.value), Some(ttl));
        }
      }
    } else {
      var v := store[sk].text.value;
      assert v.StatsValue?;
    }
  }

  /**
   * After invalidation (with the cache reachable) the next price and statistics
   * calls miss and go to the exchange, while every other entry is as it was,
   * including the symbol's books at limits other than 30.
   */
  lemma InvalidationForcesRefetch(settings: Settings, store: Redis.Store<CacheValue>, symbol: string,
                                  priceReply: HttpReply<TickerResponse>, bookReply: HttpReply<OrderBookResponse>)
    ensures var s := Invalidated(store, true, symbol);
      PriceStep(settings, s, true, symbol, priceReply).calls == [PriceRequest(symbol)]
    ensures var s := Invalidated(store, true, symbol);
      Redis.Lookup(s, true, MarketStatsKey(symbol), AsStats).None?
      && Redis.Lookup(s, true, OrderBookKey(symbol, DefaultLimit), AsBook).None?
    ensures var s := Invalidated(store, true, symbol);
      forall k | k !in {PriceKey(symbol), OrderBookKey(symbol, DefaultLimit), MarketStatsKey(symbol)} ::
        (k in s <==> k in store) && (k in store ==> s[k] == store[k])
  {
  }

  /** Invalidation leaves the symbol's books at every limit but 30 in the cache. */
  lemma InvalidationKeepsOtherLimits(store: Redis.Store<CacheValue>, online: bool, symbol: string, limit: int)
    requires limit != DefaultLimit
    ensures var s := Invalidated(store, online, symbol);
      (OrderBookKey(symbol, limit) in s <==> OrderBookKey(symbol, limit) in store)
      && (OrderBookKey(symbol, limit) in store ==> s[OrderBookKey(symbol, limit)] == store[OrderBookKey(symbol, limit)])
  {
    KeysIgnoreCase(symbol, limit, symbol, DefaultLimit);
    KeyKindsDisjoint(symbol, symbol, limit);
  }

  /** A market-stats hit returns the cached statistics, asks neither endpoint and changes nothing. */
  lemma MarketStatsHitCallsNothing(settings: Settings, store: Redis.Store<CacheValue>, online: bool, symbol: string,
                                   priceReply: HttpReply<TickerResponse>, bookReply: HttpReply<OrderBookResponse>)
    requires Redis.Lookup(store, online, MarketStatsKey(symbol), AsStats).Some?
    ensures MarketStatsStep(settings, store, online, symbol, priceReply, bookReply)
      == Outcome(Ok(Redis.Lookup(store, online, MarketStatsKey(symbol), AsStats).value), store, [])
  {
  }

  /**
   * A market-stats miss fails exactly when the price fetch, the book fetch or the
   * calculation fails, and the cause reported is the first of these in that order.
   */
  lemma MarketStatsFailureOrder(settings: Settings, store: Redis.Store<CacheValue>, online: bool, symbol: string,
                                priceReply: HttpReply<TickerResponse>, bookReply: HttpReply<OrderBookResponse>)
    requires Redis.Lookup(store, online, MarketStatsKey(symbol), AsStats).None?
    ensures var o := MarketStatsStep(settings, store, online, symbol, priceReply, bookReply);
      var p := PriceStep(settings, store, online, symbol, priceReply);
      var b := OrderBookStep(settings, p.store, online, symbol, DefaultLimit, bookReply);
      && o.calls == p.calls + b.calls
      && (o.result.Err? <==> (p.result.Err? || b.result.Err?
            || CalculateMarketStats(p.result.value, b.result.value, settings.parseNumber).None?))
      && (p.result.Err? ==> o.result == Err(ApiError(Bybit, MarketStatsFetch, symbol, Inner(p.result.error))))
      && (p.result.Ok? && b.result.Err? ==> o.result == Err(ApiError(Bybit, MarketStatsFetch, symbol, Inner(b.result.error))))
  {
  }

  lemma SoftPriceStep(settings: Settings, store: Redis.Store<CacheValue>, symbol: string, reply: HttpReply<TickerResponse>)
    requires Redis.Lookup(store, true, PriceKey(symbol), AsPrice).None?
    requires ReadTicker(reply, settings.parseFloat).Soft?
    ensures PriceStep(settings, store, true, symbol, reply) == Outcome(Ok(0.0), store, [PriceRequest(symbol)])
  {
    assert ReadTicker(reply, settings.parseFloat) == Soft(0.0);
  }

  /**
   * A market-stats miss whose price and depth-30 book fetches both succeed
   * returns the statistics calculated from that price and that book, and caches
   * them under the statistics key; a malformed level fails it instead.
   */
  lemma MarketStatsComposes(settings: Settings, store: Redis.Store<CacheValue>, online: bool, symbol: string,
                            priceReply: HttpReply<TickerResponse>, bookReply: HttpReply<OrderBookResponse>)
    requires Redis.Lookup(store, online, MarketStatsKey(symbol), AsStats).None?
    requires PriceStep(settings, store, online, symbol, priceReply).result.Ok?
    requires OrderBookStep(settings, PriceStep(settings, store, online, symbol, priceReply).store, online, symbol, DefaultLimit, bookReply).result.Ok?
    ensures var o := MarketStatsStep(settings, store, online, symbol, priceReply, bookReply);
      var p := PriceStep(settings, store, online, symbol, priceReply);
      var b := OrderBookStep(settings, p.store, online, symbol, DefaultLimit, bookReply);
      var s := CalculateMarketStats(p.result.value, b.result.value, settings.parseNumber);
      && o.calls == p.calls + b.calls
      && (s.None? ==> o == Outcome(Err(ApiError(Bybit, MarketStatsFetch, symbol, MalformedLevel)), b.store, o.calls))
      && (s.Some? ==>
            && o.result == Ok(s.value)
            && o.result.value.currentPrice == p.result.value
            && o.store == Redis.Put(b.store, online, MarketStatsKey(symbol), EncodeStats(s.value), Some(settings.cacheDurationSeconds))
            && (online && settings.cacheDurationSeconds > 0 ==>
                  Redis.Lookup(o.store, online, MarketStatsKey(symbol), AsStats) == Some(s.value)))
  {
    var p := PriceStep(settings, store, online, symbol, priceReply);
    var b := OrderBookStep(settings, p.store, online, symbol, DefaultLimit, bookReply);
    var s := CalculateMarketStats(p.result.value, b.result.value, settings.parseNumber);
    if s.Some? && online && settings.cacheDurationSeconds > 0 {
      Redis.GetAfterSet(b.store, MarketStatsKey(symbol), EncodeStats(s.value), settings.cacheDurationSeconds, AsStats, s.value);
    }
  }

  /**
   * A price that came back as the soft 0 (a rejected ticker, an empty list, a null
   * or unparsable last price) is not cached itself, yet statistics built on it are:
   * the next market-stats call returns them (with price 0) without asking again.
   */
  lemma SoftPriceSurvivesInStats(settings: Settings, store: Redis.Store<CacheValue>, symbol: string,
                                 priceReply: HttpReply<TickerResponse>, bookReply: HttpReply<OrderBookResponse>,
                                 priceReply2: HttpReply<TickerResponse>, bookReply2: HttpReply<OrderBookResponse>)
    requires settings.cacheDurationSeconds > 0
    requires Redis.Lookup(store, true, MarketStatsKey(symbol), AsStats).None?
    requires Redis.Lookup(store, true, PriceKey(symbol), AsPrice).None?
    requires ReadTicker(priceReply, settings.parseFloat).Soft?
    requires OrderBookStep(settings, store, true, symbol, DefaultLimit, bookReply).result.Ok?
    requires CalculateMarketStats(0.0, OrderBookStep(settings, store, true, symbol, DefaultLimit, bookReply).result.value, settings.parseNumber).Some?
    ensures var o := MarketStatsStep(settings, store, true, symbol, priceReply, bookReply);
      && o.result.Ok? && o.result.value.currentPrice == 0.0
      && Redis.Lookup(o.store, true, PriceKey(symbol), AsPrice).None?
      && MarketStatsStep(settings, o.store, true, symbol, priceReply2, bookReply2) == Outcome(o.result, o.store, [])
  {
    SoftPriceStep(settings, store, symbol, priceReply);
    var o := MarketStatsStep(settings, store, true, symbol, priceReply, bookReply);
    var b := OrderBookStep(settings, store, true, symbol, DefaultLimit, bookReply);
    KeyKindsDisjoint(symbol, symbol, DefaultLimit);
    OnlySuccessIsCached(store, true, settings.cacheDurationSeconds, OrderBookSlot(symbol, DefaultLimit),
      OrderBookMiss(symbol, DefaultLimit, bookReply), Failure(OrderBookFetch, symbol));
    Redis.OnlyTheGivenKey(b.store, true, MarketStatsKey(symbol), PriceKey(symbol), EncodeStats(o.result.value), Some(settings.cacheDurationSeconds));
    Redis.GetAfterSet(b.store, MarketStatsKey(symbol), EncodeStats(o.result.value), settings.cacheDurationSeconds, AsStats, o.result.value);
  }

  class BybitServices {
    const redis: Redis.RedisService<CacheValue>
    const settings: Settings
    /** Requests sent to the exchange, oldest first. */
    ghost var requests: seq<Request>

    constructor (cache: Redis.RedisService<CacheValue>, options: Settings)
      ensures redis == cache && settings == options && requests == []
    {
      redis := cache;
      settings := options;
      requests := [];
    }

    method GetPrice(symbol: string, reply: HttpReply<TickerResponse>) returns (r: Result<real, ApiError>)
      modifies this`requests, redis`store
      ensures var o := PriceStep(settings, old(redis.store), redis.online, symbol, reply);
        r == o.result && redis.store == o.store && requests == old(requests) + o.calls
    {
      var key := PriceKey(symbol);
      var cached := redis.Get(key, AsPrice);
      if cached.Some? {
        return Ok(cached.value);
      }
      requests := requests + [PriceRequest(symbol)];
      match ReadTicker(reply, settings.parseFloat)
      case Got(p) =>
        redis.Set(key, EncodePrice(p), Some(settings.cacheDurationSeconds));
        r := Ok(p);
      case Soft(v) =>
        r := Ok(v);
      case Thrown(c) =>
        r := Err(ApiError(Bybit, PriceFetch, symbol, c));
    }

    method GetOrderBook(symbol: string, limit: int, reply: HttpReply<OrderBookResponse>) returns (r: Result<OrderBookData, ApiError>)
      modifies this`requests, redis`store
      ensures var o := OrderBookStep(settings, old(redis.store), redis.online, symbol, limit, reply);
        r == o.result && redis.store == o.store && requests == old(requests) + o.calls
    {
      var key := OrderBookKey(symbol, limit);
      var cached := redis.Get(key, AsBook);
      if cached.Some? {
        return Ok(cached.value);
      }
      if !LimitInRange(limit) {
        return Err(ApiError(Bybit, OrderBookFetch, symbol, LimitOutOfRange(limit)));
      }
      requests := requests + [OrderBookRequest(symbol, limit)];
      match ReadOrderBook(reply)
      case Got(book) =>
        redis.Set(key, EncodeBook(book), Some(settings.cacheDurationSeconds));
        r := Ok(book);
      case Soft(v) =>
        r := Ok(v);
      case Thrown(c) =>
        r := Err(ApiError(Bybit, OrderBookFetch, symbol, c));
    }

    method GetMarketStats(symbol: string, priceReply: HttpReply<TickerResponse>, bookReply: HttpReply<OrderBookResponse>)
      returns (r: Result<MarketStats, ApiError>)
      modifies this`requests, redis`store
      ensures var o := MarketStatsStep(settings, old(redis.store), redis.online, symbol, priceReply, bookReply);
        r == o.result && redis.store == o.store && requests == old(requests) + o.calls
    {
      var key := MarketStatsKey(symbol);
      var cached := redis.Get(key, AsStats);
      if cached.Some? {
        MarketStatsHitCallsNothing(settings, redis.store, redis.online, symbol, priceReply, bookReply);
        assert requests + [] == requests;
        return Ok(cached.value);
      }
      ghost var before, logged := redis.store, requests;
      var price := GetPrice(symbol, priceReply);
      ghost var p := PriceStep(settings, before, redis.online, symbol, priceReply);
      var book := GetOrderBook(symbol, DefaultLimit, bookReply);
      ghost var b := OrderBookStep(settings, p.store, redis.online, symbol, DefaultLimit, bookReply);
      assert requests == logged + (p.calls + b.calls) by {
        assert requests == (logged + p.calls) + b.calls;
      }
      MarketStatsFailureOrder(settings, before, redis.online, symbol, priceReply, bookReply);
      assert price == p.result && book == b.result && redis.store == b.store;
      if price.Err? {
        r := Err(ApiError(Bybit, MarketStatsFetch, symbol, Inner(price.error)));
      } else if book.Err? {
        r := Err(ApiError(Bybit, MarketStatsFetch, symbol, Inner(book.error)));
      } else {
        var stats := CalculateMarketStats(price.value, book.value, settings.parseNumber);
        if stats.None? {
          r := Err(ApiError(Bybit, MarketStatsFetch, symbol, MalformedLevel));
        } else {
          redis.Set(key, EncodeStats(stats.value), Some(settings.cacheDurationSeconds));
          r := Ok(stats.value);
        }
      }
    }

    /**
     * GetMarketStatsWithRetryAsync, where `outcomes[k - 1]` is what the k-th call
     * of GetMarketStatsAsync(symbol) yields. The last failure is rethrown; with
     * maxRetries <= 0 no call is made and the call fails outright.
     */
    method GetMarketStatsWithRetry(symbol: string, maxRetries: int, outcomes: seq<Result<MarketStats, ApiError>>)
      returns (r: Result<MarketStats, ApiError>, invoked: nat, ghost delays: seq<nat>)
      requires maxRetries <= |outcomes|
      ensures invoked == Retry.Attempts(maxRetries, outcomes)
      ensures maxRetries <= 0 ==>
        invoked == 0 && r == Err(ApiError(Bybit, MarketStatsRetry, symbol, AttemptsExhausted(maxRetries))) && delays == []
      ensures maxRetries > 0 ==> 1 <= invoked <= maxRetries && r == outcomes[invoked - 1]
      ensures maxRetries > 0 ==> delays == Retry.Backoff(invoked - 1)
    {
      Retry.AttemptsCharacterised(maxRetries, outcomes);
      r, invoked, delays := Retry.WithRetry(maxRetries, outcomes, Err(ApiError(Bybit, MarketStatsRetry, symbol, AttemptsExhausted(maxRetries))));
    }

    method InvalidateCache(symbol: string)
      modifies redis`store
      ensures redis.store == Invalidated(old(redis.store), redis.online, symbol)
    {
      var symbolUpper := ToUpper(symbol);
      var priceKey := PriceCacheKeyPrefix + symbolUpper;
      var orderBookKey := OrderBookCacheKeyPrefix + symbolUpper + ":30";
      var marketStatsKey := MarketStatsCacheKeyPrefix + symbolUpper;
      assert IntToString(DefaultLimit) == NatToString(30) == NatToString(3) + "0" == "30";
      assert orderBookKey == OrderBookKey(symbol, DefaultLimit) by {
        assert (OrderBookCacheKeyPrefix + symbolUpper + ":") + "30" == OrderBookCacheKeyPrefix + symbolUpper + ":30";
      }
      redis.Remove(priceKey);
      redis.Remove(orderBookKey);
      redis.Remove(marketStatsKey);
    }
  }
}
