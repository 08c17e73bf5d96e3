/**
 * What the two exchange services have in common: the shape of an upstream
 * HTTP reply, the exceptions they throw, and the cache-aside step every
 * fetcher follows. A fetcher looks the namespaced key up; on a hit it returns
 * the cached value and calls nothing; on a miss it lets the exchange-specific
 * code make (or refuse to make) its request and then:
 *   - writes and returns a value read successfully from the reply (Got),
 *   - returns a fallback value without writing anything (Soft), or
 *   - throws the exchange's exception wrapping the cause (Thrown).
 */
module CacheAside {
  import opened Base
  import Redis

  datatype Exchange = Binance | Bybit

  datatype Operation = PriceFetch | OrderBookFetch | MarketStatsFetch | MarketStatsRetry

  /** An outbound call to an exchange endpoint, with the symbol exactly as the caller wrote it. */
  datatype Request = PriceRequest(symbol: string) | OrderBookRequest(symbol: string, limit: int)

  /** Why a fetch threw. */
  datatype Cause =
    | TransportFailure              // HttpClient.GetAsync threw (connection, timeout)
    | HttpStatus(code: int)         // EnsureSuccessStatusCode on a non-2xx status
    | MalformedJson                 // the body is not JSON of the expected shape
    | MissingField                  // a dynamic property access on a field that is absent
    | NullReference                 // a member access through a null part of the reply
    | LimitOutOfRange(limit: int)   // the ArgumentException thrown for a bad depth limit
    | ExchangeRejected              // a non-zero retCode on an order-book reply
    | InvalidOrderBook              // a book that is null or fails IsValid
    | MalformedLevel                // decimal.Parse or an index failed in the calculator
    | AttemptsExhausted(attempts: int)
    | Inner(error: ApiError)        // an exchange exception rethrown inside another

  /** BinanceApiException / BybitApiException: the operation, the symbol and the inner cause. */
  datatype ApiError = ApiError(exchange: Exchange, operation: Operation, symbol: string, cause: Cause)

  /** A JSON body as the deserialiser sees it: not JSON, the literal null, or a document. */
  datatype Json<T> = Malformed | Null | Document(doc: T)

  /** The upstream's answer to a request: no answer at all, or a status code and a body. */
  datatype HttpReply<B> = Unreachable | Response(status: int, body: Json<B>)

  predicate IsSuccessStatus(code: int)
  {
    200 <= code <= 299
  }

  /**
   * The transport part of every fetch (GetAsync, then EnsureSuccessStatusCode):
   * the cause to throw, or None when the body may be read.
   */
  function TransportCause<B>(reply: HttpReply<B>): Option<Cause>
  {
    match reply
    case Unreachable => Some(TransportFailure)
    case Response(status, body) =>
      if !IsSuccessStatus(status) then Some(HttpStatus(status))
      else if body.Malformed? then Some(MalformedJson)
      else None
  }

  /** The health probe of either service: healthy when the price could be read and is positive. */
  predicate Healthy(price: Result<real, ApiError>)
  {
    price.Ok? && price.value > 0.0
  }

  /** What the miss path made of the upstream reply. */
  datatype Fetched<T> = Got(value: T) | Soft(value: T) | Thrown(cause: Cause)

  /** The requests the miss path sent, and what it made of the reply. */
  datatype Miss<T> = Miss(calls: seq<Request>, fetched: Fetched<T>)

  /** The result of one fetcher call, the store after it and the requests it sent. */
  datatype Outcome<T, V> = Outcome(result: Result<T, ApiError>, store: Redis.Store<V>, calls: seq<Request>)

  /** Where a fetcher writes and how its values are (de)serialised. */
  datatype Slot<!T, !V> = Slot(key: string, decode: V -> Option<T>, encode: T -> V)

  /** One cache-aside fetch of `slot.key`, with `miss` standing for the upstream part. */
  function Step<T, V>(store: Redis.Store<V>, online: bool, ttl: int, slot: Slot<T, V>, miss: Miss<T>, failure: Cause -> ApiError): Outcome<T, V>
  {
    var hit := Redis.Lookup(store, online, slot.key, slot.decode);
    if hit.Some? then Outcome(Ok(hit.value), store, [])
    else
      match miss.fetched
      case Got(v) => Outcome(Ok(v), Redis.Put(store, online, slot.key, slot.encode(v), Some(ttl)), miss.calls)
      case Soft(v) => Outcome(Ok(v), store, miss.calls)
      case Thrown(c) => Outcome(Err(failure(c)), store, miss.calls)
  }

  /** A hit returns the cached value, sends nothing and writes nothing. */
  lemma HitCallsNothing<T, V>(store: Redis.Store<V>, online: bool, ttl: int, slot: Slot<T, V>, miss: Miss<T>, failure: Cause -> ApiError)
    requires Redis.Lookup(store, online, slot.key, slot.decode).Some?
    ensures Step(store, online, ttl, slot, miss, failure)
      == Outcome(Ok(Redis.Lookup(store, online, slot.key, slot.decode).value), store, [])
  {
  }

  /**
   * Only a value read successfully from the reply is written, and then only under
   * the fetcher's own key; a soft fallback or a failure leaves the store as it was.
   */
  lemma OnlySuccessIsCached<T, V>(store: Redis.Store<V>, online: bool, ttl: int, slot: Slot<T, V>, miss: Miss<T>, failure: Cause -> ApiError)
    ensures var o := Step(store, online, ttl, slot, miss, failure);
      o.store != store ==> miss.fetched.Got? && o.store == store[slot.key := Redis.Entry(Redis.Json(slot.encode(miss.fetched.value)), Some(ttl))]
    ensures var o := Step(store, online, ttl, slot, miss, failure);
      forall k :: k != slot.key ==> (k in o.store <==> k in store) && (k in store ==> o.store[k] == store[k])
  {
  }

  /** A failure on the miss path always surfaces as the exchange's exception, never as a value. */
  lemma FailureIsNeverAValue<T, V>(store: Redis.Store<V>, online: bool, ttl: int, slot: Slot<T, V>, miss: Miss<T>, failure: Cause -> ApiError)
    ensures var o := Step(store, online, ttl, slot, miss, failure);
      o.result.Err? <==> Redis.Lookup(store, online, slot.key, slot.decode).None? && miss.fetched.Thrown?
    ensures var o := Step(store, online, ttl, slot, miss, failure);
      o.result.Err? ==> o.result.error == failure(miss.fetched.cause)
  {
  }

  /**
   * A value fetched and written is what a second call within its lifetime gets:
   * that call is a hit, sends nothing and ignores what the upstream would say.
   */
  lemma SecondCallHits<T, V>(store: Redis.Store<V>, ttl: int, slot: Slot<T, V>, v: T, miss2: Miss<T>, failure: Cause -> ApiError)
    requires ttl > 0
    requires slot.decode(slot.encode(v)) == Some(v)
    requires Redis.Lookup(store, true, slot.key, slot.decode).None?
    ensures var first := Step(store, true, ttl, slot, Miss([], Got(v)), failure);
      first.result == Ok(v)
      && Step(first.store, true, ttl, slot, miss2, failure) == Outcome(Ok(v), first.store, [])
  {
  }

  /** With the cache unreachable every call is a miss and the store is never written. */
  lemma OutageBypassesCache<T, V>(store: Redis.Store<V>, ttl: int, slot: Slot<T, V>, miss: Miss<T>, failure: Cause -> ApiError)
    ensures var o := Step(store, false, ttl, slot, miss, failure);
      o.store == store && o.calls == miss.calls
      && o.result == match miss.fetched
        case Got(v) => Ok(v)
        case Soft(v) => Ok(v)
        case Thrown(c) => Err(failure(c))
  {
  }
}
