/**
 * BinanceServices: price, order book and market statistics for a symbol,
 * each read through the cache under a "binance:" key and fetched from the
 * exchange on a miss.
 *
 * The exchange is represented by the decoded reply each call would receive,
 * passed in as a parameter; the requests actually sent are recorded in the
 * ghost log `requests`, so that "no upstream call" is a statement about it.
 */
module Binance {
  import opened Base
  import opened Text
  import Redis
  import opened Stats
  import opened BinanceModels
  import opened CacheAside
  import Retry

  const PriceCacheKeyPrefix := "binance:price:"
  const OrderBookCacheKeyPrefix := "binance:orderbook:"
  const MarketStatsCacheKeyPrefix := "binance:marketstats:"

  /** The depth limits the service accepts, and the one GetMarketStats asks for. */
  const MinLimit := 5
  const MaxLimit := 1000
  const DefaultLimit := 30

  function PriceKey(symbol: string): string
  {
    PriceCacheKeyPrefix + ToUpper(symbol)
  }

  function OrderBookKey(symbol: string, limit: int): string
  {
    OrderBookCacheKeyPrefix + ToUpper(symbol) + ":" + IntToString(limit)
  }

  function MarketStatsKey(symbol: string): string
  {
    MarketStatsCacheKeyPrefix + ToUpper(symbol)
  }

  /** Symbols that differ only in case share their price and market-stats entries, and no others do. */
  lemma KeysIgnoreCase(s: string, t: string)
    ensures PriceKey(s) == PriceKey(t) <==> EqualsIgnoringCase(s, t)
    ensures MarketStatsKey(s) == MarketStatsKey(t) <==> EqualsIgnoringCase(s, t)
  {
    PrefixCancel(PriceCacheKeyPrefix, ToUpper(s), ToUpper(t));
    PrefixCancel(MarketStatsCacheKeyPrefix, ToUpper(s), ToUpper(t));
    ToUpperEqualIff(s, t);
  }

  /** An order-book key names the symbol up to case and the limit exactly. */
  lemma OrderBookKeyIdentifies(s: string, a: int, t: string, b: int)
    ensures OrderBookKey(s, a) == OrderBookKey(t, b) <==> EqualsIgnoringCase(s, t) && a == b
  {
    IntToStringHasNoColon(a);
    IntToStringHasNoColon(b);
    LastColonSplit(OrderBookCacheKeyPrefix + ToUpper(s), IntToString(a), OrderBookCacheKeyPrefix + ToUpper(t), IntToString(b));
    PrefixCancel(OrderBookCacheKeyPrefix, ToUpper(s), ToUpper(t));
    ToUpperEqualIff(s, t);
    IntToStringInjective(a, b);
  }

  /** The three kinds of key never collide, whatever the symbols and limit. */
  lemma KeyKindsDisjoint(s: string, t: string, limit: int)
    ensures PriceKey(s) != OrderBookKey(t, limit)
    ensures PriceKey(s) != MarketStatsKey(t)
    ensures OrderBookKey(s, limit) != MarketStatsKey(t)
  {
    assert PriceKey(s)[8] == 'p';
    assert OrderBookKey(t, limit)[8] == OrderBookKey(s, limit)[8] == 'o';
    assert MarketStatsKey(t)[8] == 'm';
  }

  /** What the service writes to the cache. */
  datatype CacheValue = PriceValue(price: real) | BookValue(book: OrderBookData) | StatsValue(stats: MarketStats)

  /** Deserialising a cached string as decimal?, OrderBookData or MarketStats: text of another shape does not read. */
  function AsPrice(v: CacheValue): Option<real> { if v.PriceValue? then Some(v.price) else None }
  function AsBook(v: CacheValue): Option<OrderBookData> { if v.BookValue? then Some(v.book) else None }
  function AsStats(v: CacheValue): Option<MarketStats> { if v.StatsValue? then Some(v.stats) else None }
  function EncodePrice(p: real): CacheValue { PriceValue(p) }
  function EncodeBook(b: OrderBookData): CacheValue { BookValue(b) }
  function EncodeStats(s: MarketStats): CacheValue { StatsValue(s) }

  function PriceSlot(symbol: string): Slot<real, CacheValue> { Slot(PriceKey(symbol), AsPrice, EncodePrice) }
  function OrderBookSlot(symbol: string, limit: int): Slot<OrderBookData, CacheValue> { Slot(OrderBookKey(symbol, limit), AsBook, EncodeBook) }

  /**
   * Service options and the number parsers: `parseFloat` is decimal.TryParse
   * with NumberStyles.Float, `parseNumber` is decimal.Parse; both use the
   * invariant culture. Like TryParse, `parseFloat` is expected to reject
   * the empty text, which is what a JSON null price reads as.
   */
  datatype Settings = Settings(cacheDurationSeconds: int, parseFloat: string -> Option<real>, parseNumber: string -> Option<real>)

  /** The exception a Binance fetch throws. */
  function Failure(op: Operation, symbol: string): Cause -> ApiError
  {
    c => ApiError(Binance, op, symbol, c)
  }

  /**
   * The ticker document read dynamically: `price` is None when the property is
   * missing and otherwise holds its text (empty for a JSON null).
   */
  datatype PriceDocument = PriceDocument(price: Option<string>)

  /**
   * The miss path of GetPriceAsync after the request: a null document or a
   * price that does not parse gives 0 without failing; an absent property
   * cannot be read and throws.
   */
  function ReadPrice(reply: HttpReply<PriceDocument>, parse: string -> Option<real>): Fetched<real>
  {
    match TransportCause(reply)
    case Some(c) => Thrown(c)
    case None =>
      match reply.body
      case Null => Soft(0.0)
      case Document(doc) =>
        match doc.price
        case None => Thrown(MissingField)
        case Some(text) =>
          match parse(text)
          case Some(p) => Got(p)
          case None => Soft(0.0)
  }

  /** The miss path of GetOrderBookAsync after the request: only a non-null, valid book is a value. */
  function ReadOrderBook(reply: HttpReply<OrderBookData>): Fetched<OrderBookData>
  {
    match TransportCause(reply)
    case Some(c) => Thrown(c)
    case None =>
      match reply.body
      case Document(book) => if book.IsValid() then Got(book) else Thrown(InvalidOrderBook)
      case _ => Thrown(InvalidOrderBook)
  }

  predicate LimitInRange(limit: int)
  {
    MinLimit <= limit <= MaxLimit
  }

  /** A limit out of range is refused before any request; otherwise one depth request is sent. */
  function OrderBookMiss(symbol: string, limit: int, reply: HttpReply<OrderBookData>): Miss<OrderBookData>
  {
    if !LimitInRange(limit) then Miss([], Thrown(LimitOutOfRange(limit)))
    else Miss([OrderBookRequest(symbol, limit)], ReadOrderBook(reply))
  }

  function PriceStep(settings: Settings, store: Redis.Store<CacheValue>, online: bool, symbol: string, reply: HttpReply<PriceDocument>): Outcome<real, CacheValue>
  {
    Step(store, online, settings.cacheDurationSeconds, PriceSlot(symbol),
      Miss([PriceRequest(symbol)], ReadPrice(reply, settings.parseFloat)), Failure(PriceFetch, symbol))
  }

  function OrderBookStep(settings: Settings, store: Redis.Store<CacheValue>, online: bool, symbol: string, limit: int, reply: HttpReply<OrderBookData>): Outcome<OrderBookData, CacheValue>
  {
    Step(store, online, settings.cacheDurationSeconds, OrderBookSlot(symbol, limit),
      OrderBookMiss(symbol, limit, reply), Failure(OrderBookFetch, symbol))
  }

  /**
   * CalculateMarketStats: fails exactly when a level of either side is malformed;
   * otherwise it carries the symbol and price it was given, at most five bids
   * in descending and five asks in ascending price order, each a parsed level
   * of the book, the head price of each side (0 for an empty side) and the
   * volume of the kept entries.
   */
  function CalculateMarketStats(symbol: string, price: real, book: OrderBookData, parse: string -> Option<real>): (r: Option<MarketStats>)
    ensures r.Some? <==> ParseLevels(book.bids, parse).Some? && ParseLevels(book.asks, parse).Some?
    ensures r.Some? ==>
      && r.value.symbol == symbol
      && r.value.currentPrice == price
      && |r.value.topBids| == Min(TopDepth, |book.bids|)
      && |r.value.topAsks| == Min(TopDepth, |book.asks|)
      && Ordered(r.value.topBids, Descending)
      && Ordered(r.value.topAsks, Ascending)
      && multiset(r.value.topBids) <= multiset(ParseLevels(book.bids, parse).value)
      && multiset(r.value.topAsks) <= multiset(ParseLevels(book.asks, parse).value)
      && r.value.bestBidPrice == BestPrice(r.value.topBids)
      && r.value.bestAskPrice == BestPrice(r.value.topAsks)
      && r.value.bidVolume == SumVolume(r.value.topBids)
      && r.value.askVolume == SumVolume(r.value.topAsks)
  {
    match Summarize(book.bids, book.asks, parse)
    case None => None
    case Some(d) =>
      Some(MarketStats(symbol, price, d.bestBidPrice, d.bestAskPrice, d.bidVolume, d.askVolume, d.topBids, d.topAsks))
  }

  /**
   * GetMarketStatsAsync: a hit returns the cached statistics. On a miss the price
   * and the order book at the default limit are both fetched (each through its
   * own cache entry); a failure of either fails the whole call, price first;
   * otherwise the statistics are calculated and cached.
   */
  function MarketStatsStep(settings: Settings, store: Redis.Store<CacheValue>, online: bool, symbol: string,
                           priceReply: HttpReply<PriceDocument>, bookReply: HttpReply<OrderBookData>): Outcome<MarketStats, CacheValue>
  {
    var hit := Redis.Lookup(store, online, MarketStatsKey(symbol), AsStats);
    if hit.Some? then Outcome(Ok(hit.value), store, [])
    else
      var p := PriceStep(settings, store, online, symbol, priceReply);
      var b := OrderBookStep(settings, p.store, online, symbol, DefaultLimit, bookReply);
      var calls := p.calls + b.calls;
      var fail := Failure(MarketStatsFetch, symbol);
      if p.result.Err? then Outcome(Err(fail(Inner(p.result.error))), b.store, calls)
      else if b.result.Err? then Outcome(Err(fail(Inner(b.result.error))), b.store, calls)
      else
        match CalculateMarketStats(symbol, p.result.value, b.result.value, settings.parseNumber)
        case None => Outcome(Err(fail(MalformedLevel)), b.store, calls)
        case Some(stats) =>
          Outcome(Ok(stats), Redis.Put(b.store, online, MarketStatsKey(symbol), EncodeStats(stats), Some(settings.cacheDurationSeconds)), calls)
  }

  /**
   * The reply cases of GetPriceAsync: it throws for a transport failure, an error
   * status, malformed JSON or a missing price property; it returns 0 uncached for
   * a null document or a price text that does not parse; and it returns (and
   * caches) the parsed price otherwise.
   */
  lemma PriceReplyCases(reply: HttpReply<PriceDocument>, parse: string -> Option<real>)
    ensures var f := ReadPrice(reply, parse);
      f.Thrown? <==> TransportCause(reply).Some? || (reply.Response? && reply.body.Document? && reply.body.doc.price.None?)
    ensures var f := ReadPrice(reply, parse);
      f.Soft? <==> TransportCause(reply).None? && (reply.body.Null? || (reply.body.Document? && reply.body.doc.price.Some? && parse(reply.body.doc.price.value).None?))
    ensures var f := ReadPrice(reply, parse);
      f.Soft? ==> f.value == 0.0
    ensures var f := ReadPrice(reply, parse);
      f.Got? ==> (reply.Response? && IsSuccessStatus(reply.status) && reply.body.Document?
        && reply.body.doc.price.Some? && parse(reply.body.doc.price.value) == Some(f.value))
  {
  }

  /**
   * The reply cases of GetOrderBookAsync: it throws for a transport failure, an
   * error status, malformed JSON, a null document, or a book with an empty side;
   * it never gives a soft value; and an accepted book is the reply's own.
   */
  lemma OrderBookReplyCases(reply: HttpReply<OrderBookData>)
    ensures var f := ReadOrderBook(reply);
      f.Got? <==> TransportCause(reply).None? && reply.body.Document? && reply.body.doc.IsValid()
    ensures var f := ReadOrderBook(reply);
      f.Got? ==> f.value == reply.body.doc
    ensures var f := ReadOrderBook(reply);
      !f.Got? ==> f.Thrown?
    ensures var f := ReadOrderBook(reply);
      TransportCause(reply).None? && !(reply.body.Document? && reply.body.doc.IsValid()) ==> f == Thrown(InvalidOrderBook)
  {
  }

  /**
   * An in-range miss caches and returns an accepted book under its own key, and
   * rejects a book with an empty side without writing anything.
   */
  lemma OrderBookMissOutcome(settings: Settings, store: Redis.Store<CacheValue>, online: bool, symbol: string, limit: int,
                             status: int, book: OrderBookData)
    requires Redis.Lookup(store, online, OrderBookKey(symbol, limit), AsBook).None?
    requires LimitInRange(limit) && IsSuccessStatus(status)
    ensures var o := OrderBookStep(settings, store, online, symbol, limit, Response(status, Document(book)));
      && o.calls == [OrderBookRequest(symbol, limit)]
      && (book.IsValid() ==>
            && o.result == Ok(book)
            && o.store == Redis.Put(store, online, OrderBookKey(symbol, limit), EncodeBook(book), Some(settings.cacheDurationSeconds))
            && (online && settings.cacheDurationSeconds > 0 ==>
                  Redis.Lookup(o.store, online, OrderBookKey(symbol, limit), AsBook) == Some(book)))
      && (!book.IsValid() ==>
            o.result == Err(ApiError(Binance, OrderBookFetch, symbol, InvalidOrderBook)) && o.store == store)
  {
    if online && settings.cacheDurationSeconds > 0 {
      Redis.GetAfterSet(store, OrderBookKey(symbol, limit), EncodeBook(book), settings.cacheDurationSeconds, AsBook, book);
    }
  }

  /**
   * The depth limit is checked after the cache lookup: a cached book is returned
   * whatever the limit, while on a miss a limit outside 5..1000 fails before any
   * request is sent and without touching the cache.
   */
  lemma LimitCheckedAfterLookup(settings: Settings, store: Redis.Store<CacheValue>, online: bool, symbol: string, limit: int, reply: HttpReply<OrderBookData>)
    ensures var hit := Redis.Lookup(store, online, OrderBookKey(symbol, limit), AsBook);
      var o := OrderBookStep(settings, store, online, symbol, limit, reply);
      hit.Some? ==> o == Outcome(Ok(hit.value), store, [])
    ensures var hit := Redis.Lookup(store, online, OrderBookKey(symbol, limit), AsBook);
      var o := OrderBookStep(settings, store, online, symbol, limit, reply);
      hit.None? && !LimitInRange(limit) ==>
        o == Outcome(Err(ApiError(Binance, OrderBookFetch, symbol, LimitOutOfRange(limit))), store, [])
    ensures var hit := Redis.Lookup(store, online, OrderBookKey(symbol, limit), AsBook);
      var o := OrderBookStep(settings, store, online, symbol, limit, reply);
      hit.None? && LimitInRange(limit) ==> o.calls == [OrderBookRequest(symbol, limit)]
  {
  }

  /**
   * GetMarketStatsAsync starts both fetches before awaiting them; the model runs
   * them in sequence, and the order does not matter: the price and the book
   * fetches touch disjoint keys, so either order gives the same results and the
   * same store.
   */
  lemma PriceAndBookCommute(settings: Settings, store: Redis.Store<CacheValue>, online: bool, symbol: string, limit: int,
                            priceReply: HttpReply<PriceDocument>, bookReply: HttpReply<OrderBookData>)
    ensures var p1 := PriceStep(settings, store, online, symbol, priceReply);
      var b1 := OrderBookStep(settings, p1.store, online, symbol, limit, bookReply);
      var b2 := OrderBookStep(settings, store, online, symbol, limit, bookReply);
      var p2 := PriceStep(settings, b2.store, online, symbol, priceReply);
      p1.result == p2.result && b1.result == b2.result && b1.store == p2.store
  {
    var pk, bk := PriceKey(symbol), OrderBookKey(symbol, limit);
    KeyKindsDisjoint(symbol, symbol, limit);
    var p1 := PriceStep(settings, store, online, symbol, priceReply);
    var b2 := OrderBookStep(settings, store, online, symbol, limit, bookReply);
    assert Redis.Lookup(b2.store, online, pk, AsPrice) == Redis.Lookup(store, online, pk, AsPrice) by {
      OnlySuccessIsCached(store, online, settings.cacheDurationSeconds, OrderBookSlot(symbol, limit),
        OrderBookMiss(symbol, limit, bookReply), Failure(OrderBookFetch, symbol));
    }
    assert Redis.Lookup(p1.store, online, bk, AsBook) == Redis.Lookup(store, online, bk, AsBook) by {
      OnlySuccessIsCached(store, online, settings.cacheDurationSeconds, PriceSlot(symbol),
        Miss([PriceRequest(symbol)], ReadPrice(priceReply, settings.parseFloat)), Failure(PriceFetch, symbol));
    }
    var pf, bf := ReadPrice(priceReply, settings.parseFloat), OrderBookMiss(symbol, limit, bookReply).fetched;
    if Redis.Lookup(store, online, pk, AsPrice).None? && pf.Got? && Redis.Lookup(store, online, bk, AsBook).None? && bf.Got? {
      Redis.PutsCommute(store, online, pk, EncodePrice(pf.value), Some(settings.cacheDurationSeconds),
        bk, EncodeBook(bf.value), Some(settings.cacheDurationSeconds));
    }
  }

  /**
   * A market-stats miss fails exactly when the price fetch, the book fetch or the
   * calculation fails, and the cause reported is the first of these in that order.
   */
  lemma MarketStatsFailureOrder(settings: Settings, store: Redis.Store<CacheValue>, online: bool, symbol: string,
                                priceReply: HttpReply<PriceDocument>, bookReply: HttpReply<OrderBookData>)
    requires Redis.Lookup(store, online, MarketStatsKey(symbol), AsStats).None?
    ensures var o := MarketStatsStep(settings, store, online, symbol, priceReply, bookReply);
      var p := PriceStep(settings, store, online, symbol, priceReply);
      var b := OrderBookStep(settings, p.store, online, symbol, DefaultLimit, bookReply);
      && o.calls == p.calls + b.calls
      && (o.result.Err? <==> (p.result.Err? || b.result.Err?
            || CalculateMarketStats(symbol, p.result.value, b.result.value, settings.parseNumber).None?))
      && (p.result.Err? ==> o.result == Err(ApiError(Binance, MarketStatsFetch, symbol, Inner(p.result.error))))
      && (p.result.Ok? && b.result.Err? ==> o.result == Err(ApiError(Binance, MarketStatsFetch, symbol, Inner(b.result.error))))
  {
  }

  /**
   * A market-stats miss whose price and depth-30 book fetches both succeed
   * returns the statistics calculated from that price and that book, and caches
   * them under the statistics key; a malformed level fails it instead.
   */
  lemma MarketStatsComposes(settings: Settings, store: Redis.Store<CacheValue>, online: bool, symbol: string,
                            priceReply: HttpReply<PriceDocument>, bookReply: HttpReply<OrderBookData>)
    requires Redis.Lookup(store, online, MarketStatsKey(symbol), AsStats).None?
    requires PriceStep(settings, store, online, symbol, priceReply).result.Ok?
    requires OrderBookStep(settings, PriceStep(settings, store, online, symbol, priceReply).store, online, symbol, DefaultLimit, bookReply).result.Ok?
    ensures var o := MarketStatsStep(settings, store, online, symbol, priceReply, bookReply);
      var p := PriceStep(settings, store, online, symbol, priceReply);
      var b := OrderBookStep(settings, p.store, online, symbol, DefaultLimit, bookReply);
      var s := CalculateMarketStats(symbol, p.result.value, b.result.value, settings.parseNumber);
      && o.calls == p.calls + b.calls
      && (s.None? ==> o == Outcome(Err(ApiError(Binance, MarketStatsFetch, symbol, MalformedLevel)), b.store, o.calls))
      && (s.Some? ==>
            && o.result == Ok(s.value)
            && o.result.value.currentPrice == p.result.value
            && o.result.value.symbol == symbol
            && o.store == Redis.Put(b.store, online, MarketStatsKey(symbol), EncodeStats(s.value), Some(settings.cacheDurationSeconds))
            && (online && settings.cacheDurationSeconds > 0 ==>
                  Redis.Lookup(o.store, online, MarketStatsKey(symbol), AsStats) == Some(s.value)))
  {
    var p := PriceStep(settings, store, online, symbol, priceReply);
    var b := OrderBookStep(settings, p.store, online, symbol, DefaultLimit, bookReply);
    var s := CalculateMarketStats(symbol, p.result.value, b.result.value, settings.parseNumber);
    if s.Some? && online && settings.cacheDurationSeconds > 0 {
      Redis.GetAfterSet(b.store, MarketStatsKey(symbol), EncodeStats(s.value), settings.cacheDurationSeconds, AsStats, s.value);
    }
  }

  /**
   * A failed market-stats call never writes the statistics entry (though a price or
   * book fetched on the way stays cached under its own key).
   */
  lemma FailedStatsAreNotCached(settings: Settings, store: Redis.Store<CacheValue>, online: bool, symbol: string,
                                priceReply: HttpReply<PriceDocument>, bookReply: HttpReply<OrderBookData>)
    ensures var o := MarketStatsStep(settings, store, online, symbol, priceReply, bookReply);
      o.result.Err? ==> ((MarketStatsKey(symbol) in o.store <==> MarketStatsKey(symbol) in store)
        && (MarketStatsKey(symbol) in store ==> o.store[MarketStatsKey(symbol)] == store[MarketStatsKey(symbol)]))
  {
    var sk := MarketStatsKey(symbol);
    KeyKindsDisjoint(symbol, symbol, DefaultLimit);
    if Redis.Lookup(store, online, sk, AsStats).None? {
      var p := PriceStep(settings, store, online, symbol, priceReply);
      OnlySuccessIsCached(store, online, settings.cacheDurationSeconds, PriceSlot(symbol),
        Miss([PriceRequest(symbol)], ReadPrice(priceReply, settings.parseFloat)), Failure(PriceFetch, symbol));
      OnlySuccessIsCached(p.store, online, settings.cacheDurationSeconds, OrderBookSlot(symbol, DefaultLimit),
        OrderBookMiss(symbol, DefaultLimit, bookReply), Failure(OrderBookFetch, symbol));
    }
  }

  /**
   * A price that came back as the soft 0 is not cached itself, yet statistics built
   * on it are: the next market-stats call returns them (with price 0) without
   * asking the exchange again.
   */
  lemma SoftPriceSurvivesInStats(settings: Settings, store: Redis.Store<CacheValue>, symbol: string,
                                 priceReply: HttpReply<PriceDocument>, bookReply: HttpReply<OrderBookData>,
                                 priceReply2: HttpReply<PriceDocument>, bookReply2: HttpReply<OrderBookData>)
    requires settings.cacheDurationSeconds > 0
    requires Redis.Lookup(store, true, MarketStatsKey(symbol), AsStats).None?
    requires Redis.Lookup(store, true, PriceKey(symbol), AsPrice).None?
    requires ReadPrice(priceReply, settings.parseFloat).Soft?
    requires OrderBookStep(settings, store, true, symbol, DefaultLimit, bookReply).result.Ok?
    requires CalculateMarketStats(symbol, 0.0, OrderBookStep(settings, store, true, symbol, DefaultLimit, bookReply).result.value, settings.parseNumber).Some?
    ensures var o := MarketStatsStep(settings, store, true, symbol, priceReply, bookReply);
      && o.result.Ok? && o.result.value.currentPrice == 0.0
      && Redis.Lookup(o.store, true, PriceKey(symbol), AsPrice).None?
      && MarketStatsStep(settings, o.store, true, symbol, priceReply2, bookReply2) == Outcome(o.result, o.store, [])
  {
    var o := MarketStatsStep(settings, store, true, symbol, priceReply, bookReply);
    var p := PriceStep(settings, store, true, symbol, priceReply);
    assert p.store == store;
    var b := OrderBookStep(settings, store, true, symbol, DefaultLimit, bookReply);
    KeyKindsDisjoint(symbol, symbol, DefaultLimit);
    OnlySuccessIsCached(store, true, settings.cacheDurationSeconds, OrderBookSlot(symbol, DefaultLimit),
      OrderBookMiss(symbol, DefaultLimit, bookReply), Failure(OrderBookFetch, symbol));
    Redis.OnlyTheGivenKey(b.store, true, MarketStatsKey(symbol), PriceKey(symbol), EncodeStats(o.result.value), Some(settings.cacheDurationSeconds));
    Redis.GetAfterSet(b.store, MarketStatsKey(symbol), EncodeStats(o.result.value), settings.cacheDurationSeconds, AsStats, o.result.value);
  }

  /** A JSON null price reads as the empty text, which TryParse rejects: the uncached 0. */
  lemma NullPriceIsSoftZero(status: int, parse: string -> Option<real>)
    requires IsSuccessStatus(status) && parse("") == None
    ensures ReadPrice(Response(status, Document(PriceDocument(Some("")))), parse) == Soft(0.0)
  {
  }

  /** A market-stats hit returns the cached statistics, asks neither endpoint and changes nothing. */
  lemma MarketStatsHitCallsNothing(settings: Settings, store: Redis.Store<CacheValue>, online: bool, symbol: string,
                                   priceReply: HttpReply<PriceDocument>, bookReply: HttpReply<OrderBookData>)
    requires Redis.Lookup(store, online, MarketStatsKey(symbol), AsStats).Some?
    ensures MarketStatsStep(settings, store, online, symbol, priceReply, bookReply)
      == Outcome(Ok(Redis.Lookup(store, online, MarketStatsKey(symbol), AsStats).value), store, [])
  {
  }

  /**
   * The spread of calculated statistics is taken between the highest bid and the
   * lowest ask of the whole book, and is 0 when either side is empty.
   */
  lemma CalculatedSpread(symbol: string, price: real, book: OrderBookData, parse: string -> Option<real>)
    requires CalculateMarketStats(symbol, price, book, parse).Some?
    ensures var s := CalculateMarketStats(symbol, price, book, parse).value;
      (|book.bids| == 0 || |book.asks| == 0) ==> s.Spread() == 0.0 && s.SpreadPercentage() == 0.0
    ensures var s := CalculateMarketStats(symbol, price, book, parse).value;
      var bids := ParseLevels(book.bids, parse).value;
      |bids| > 0 ==> (exists e | e in bids :: e.price == s.bestBidPrice) && (forall e | e in bids :: e.price <= s.bestBidPrice)
    ensures var s := CalculateMarketStats(symbol, price, book, parse).value;
      var asks := ParseLevels(book.asks, parse).value;
      |asks| > 0 ==> (exists e | e in asks :: e.price == s.bestAskPrice) && (forall e | e in asks :: s.bestAskPrice <= e.price)
  {
    SummaryBestIsExtreme(book.bids, book.asks, parse);
    var s := CalculateMarketStats(symbol, price, book, parse).value;
    if |book.bids| == 0 || |book.asks| == 0 {
      SpreadZeroUnlessBothSides(s);
    }
  }

  /**
   * The kept levels are the top five and not merely five ordered levels: no
   * level left out ranks ahead of a kept one on either side.
   */
  lemma CalculatedTopFive(symbol: string, price: real, book: OrderBookData, parse: string -> Option<real>)
    requires CalculateMarketStats(symbol, price, book, parse).Some?
    ensures var s := CalculateMarketStats(symbol, price, book, parse).value;
      && IsTopOf(s.topBids, ParseLevels(book.bids, parse).value, Descending)
      && IsTopOf(s.topAsks, ParseLevels(book.asks, parse).value, Ascending)
  {
    SummaryTopFive(book.bids, book.asks, parse);
  }

  /** A price that came back as the soft 0 reports the service unhealthy. */
  lemma SoftPriceIsUnhealthy(settings: Settings, store: Redis.Store<CacheValue>, online: bool, symbol: string, reply: HttpReply<PriceDocument>)
    requires Redis.Lookup(store, online, PriceKey(symbol), AsPrice).None?
    ensures ReadPrice(reply, settings.parseFloat).Soft? ==> !Healthy(PriceStep(settings, store, online, symbol, reply).result)
    ensures Healthy(PriceStep(settings, store, online, symbol, reply).result) ==> ReadPrice(reply, settings.parseFloat).Got?
  {
  }

  class BinanceServices {
    const redis: Redis.RedisService<CacheValue>
    const settings: Settings
    /** Requests sent to the exchange, oldest first. */
    ghost var requests: seq<Request>

    constructor (cache: Redis.RedisService<CacheValue>, options: Settings)
      ensures redis == cache && settings == options && requests == []
    {
      redis := cache;
      settings := options;
      requests := [];
    }

    method GetPrice(symbol: string, reply: HttpReply<PriceDocument>) returns (r: Result<real, ApiError>)
      modifies this`requests, redis`store
      ensures var o := PriceStep(settings, old(redis.store), redis.online, symbol, reply);
        r == o.result && redis.store == o.store && requests == old(requests) + o.calls
    {
      var key := PriceKey(symbol);
      var cached := redis.Get(key, AsPrice);
      if cached.Some? {
        return Ok(cached.value);
      }
      requests := requests + [PriceRequest(symbol)];
      match ReadPrice(reply, settings.parseFloat)
      case Got(p) =>
        redis.Set(key, EncodePrice(p), Some(settings.cacheDurationSeconds));
        r := Ok(p);
      case Soft(v) =>
        r := Ok(v);
      case Thrown(c) =>
        r := Err(ApiError(Binance, PriceFetch, symbol, c));
    }

    method GetOrderBook(symbol: string, limit: int, reply: HttpReply<OrderBookData>) returns (r: Result<OrderBookData, ApiError>)
      modifies this`requests, redis`store
      ensures var o := OrderBookStep(settings, old(redis.store), redis.online, symbol, limit, reply);
        r == o.result && redis.store == o.store && requests == old(requests) + o.calls
    {
      var key := OrderBookKey(symbol, limit);
      var cached := redis.Get(key, AsBook);
      if cached.Some? {
        return Ok(cached.value);
      }
      if !LimitInRange(limit) {
        return Err(ApiError(Binance, OrderBookFetch, symbol, LimitOutOfRange(limit)));
      }
      requests := requests + [OrderBookRequest(symbol, limit)];
      match ReadOrderBook(reply)
      case Got(book) =>
        redis.Set(key, EncodeBook(book), Some(settings.cacheDurationSeconds));
        r := Ok(book);
      case Soft(v) =>
        r := Ok(v);
      case Thrown(c) =>
        r := Err(ApiError(Binance, OrderBookFetch, symbol, c));
    }

    method GetMarketStats(symbol: string, priceReply: HttpReply<PriceDocument>, bookReply: HttpReply<OrderBookData>)
      returns (r: Result<MarketStats, ApiError>)
      modifies this`requests, redis`store
      ensures var o := MarketStatsStep(settings, old(redis.store), redis.online, symbol, priceReply, bookReply);
        r == o.result && redis.store == o.store && requests == old(requests) + o.calls
    {
      var key := MarketStatsKey(symbol);
      var cached := redis.Get(key, AsStats);
      if cached.Some? {
        MarketStatsHitCallsNothing(settings, redis.store, redis.online, symbol, priceReply, bookReply);
        assert requests + [] == requests;
        return Ok(cached.value);
      }
      ghost var before, logged := redis.store, requests;
      var price := GetPrice(symbol, priceReply);
      ghost var p := PriceStep(settings, before, redis.online, symbol, priceReply);
      var book := GetOrderBook(symbol, DefaultLimit, bookReply);
      ghost var b := OrderBookStep(settings, p.store, redis.online, symbol, DefaultLimit, bookReply);
      assert requests == logged + (p.calls + b.calls) by {
        assert requests == (logged + p.calls) + b.calls;
      }
      MarketStatsFailureOrder(settings, before, redis.online, symbol, priceReply, bookReply);
      assert price == p.result && book == b.result && redis.store == b.store;
      if price.Err? {
        r := Err(ApiError(Binance, MarketStatsFetch, symbol, Inner(price.error)));
      } else if book.Err? {
        r := Err(ApiError(Binance, MarketStatsFetch, symbol, Inner(book.error)));
      } else {
        var stats := CalculateMarketStats(symbol, price.value, book.value, settings.parseNumber);
        if stats.None? {
          r := Err(ApiError(Binance, MarketStatsFetch, symbol, MalformedLevel));
        } else {
          redis.Set(key, EncodeStats(stats.value), Some(settings.cacheDurationSeconds));
          r := Ok(stats.value);
        }
      }
    }

    /**
     * GetMarketStatsWithRetryAsync, where `outcomes[k - 1]` is what the k-th call
     * of GetMarketStatsAsync(symbol) yields. With maxRetries <= 0 no call is
     * made and a default MarketStats is returned.
     */
    method GetMarketStatsWithRetry(symbol: string, maxRetries: int, outcomes: seq<Result<MarketStats, ApiError>>)
      returns (r: Result<MarketStats, ApiError>, invoked: nat, ghost delays: seq<nat>)
      requires maxRetries <= |outcomes|
      ensures invoked == Retry.Attempts(maxRetries, outcomes)
      ensures maxRetries <= 0 ==> invoked == 0 && r == Ok(DefaultStats) && delays == []
      ensures maxRetries > 0 ==> 1 <= invoked <= maxRetries && r == outcomes[invoked - 1]
      ensures maxRetries > 0 ==> delays == Retry.Backoff(invoked - 1)
    {
      Retry.AttemptsCharacterised(maxRetries, outcomes);
      r, invoked, delays := Retry.WithRetry(maxRetries, outcomes, Ok(DefaultStats));
    }
  }
}
