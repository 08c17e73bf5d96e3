/**
 * The statistics calculator that CalculateMarketStats carries, identically, in
 * both exchange services: parse each [price, quantity] string pair, sort bids
 * by descending and asks by ascending price (a stable sort, as LINQ's OrderBy
 * is), keep the first five of each side, read the best price off the head of
 * each side (0 when a side is empty) and sum price × quantity over the kept
 * entries only.
 */
module Stats {
  import opened Base

  /** A book side as the exchanges send it: a list of string lists, [price, quantity, ...]. */
  type Levels = seq<seq<string>>

  datatype OrderBookEntry = OrderBookEntry(price: real, quantity: real)
  {
    /** Notional value of a level, price × quantity. */
    function Volume(): real
    {
      price * quantity
    }
  }

  /** How many entries of each side are kept. */
  const TopDepth := 5

  /**
   * One level: the first two strings parsed as price and quantity. A level with
   * fewer than two strings fails (index out of range), as does a string that
   * does not parse; `parse` stands for decimal.Parse with the invariant culture.
   */
  function ParseLevel(level: seq<string>, parse: string -> Option<real>): Option<OrderBookEntry>
  {
    if |level| < 2 then None
    else
      match (parse(level[0]), parse(level[1]))
      case (Some(p), Some(q)) => Some(OrderBookEntry(p, q))
      case _ => None
  }

  /** A whole side: succeeds exactly when every level parses, keeping the order. */
  function ParseLevels(levels: Levels, parse: string -> Option<real>): (r: Option<seq<OrderBookEntry>>)
    ensures r.Some? <==> forall i :: 0 <= i < |levels| ==> ParseLevel(levels[i], parse).Some?
    ensures r.Some? ==> |r.value| == |levels|
    ensures r.Some? ==> forall i :: 0 <= i < |levels| ==> ParseLevel(levels[i], parse) == Some(r.value[i])
  {
    if levels == [] then Some([])
    else
      match (ParseLevel(levels[0], parse), ParseLevels(levels[1..], parse))
      case (Some(e), Some(rest)) => Some([e] + rest)
      case (None, _) => None
      case (_, None) =>
        assert forall i :: 1 <= i < |levels| ==> levels[1..][i - 1] == levels[i];
        None
  }

  datatype Direction = Descending | Ascending

  /** `a` may come before `b` on a side sorted in direction `dir`. */
  predicate Before(a: OrderBookEntry, b: OrderBookEntry, dir: Direction)
  {
    match dir
    case Descending => a.price >= b.price
    case Ascending => a.price <= b.price
  }

  predicate Ordered(s: seq<OrderBookEntry>, dir: Direction)
  {
    forall i, j :: 0 <= i < j < |s| ==> Before(s[i], s[j], dir)
  }

  /**
   * Insert `x` into an ordered side ahead of every entry it may precede. Ties
   * go to `x`, which keeps equal prices in input order when the sort inserts
   * from the back.
   */
  function Insert(x: OrderBookEntry, s: seq<OrderBookEntry>, dir: Direction): (r: seq<OrderBookEntry>)
    ensures |r| == |s| + 1
    ensures Ordered(s, dir) ==> Ordered(r, dir)
    decreases |s|, 0
  {
    if s == [] then [x]
    else if Before(x, s[0], dir) then [x] + s
    else
      var t := Insert(x, s[1..], dir);
      if Ordered(s, dir) then
        OrderedTail(s, dir);
        InsertPermutes(x, s[1..], dir);
        HeadPrecedes(s[0], x, s[1..], t, dir);
        [s[0]] + t
      else
        [s[0]] + t
  }

  /** Insert adds `x` and keeps every entry of `s`. */
  lemma {:induction false} InsertPermutes(x: OrderBookEntry, s: seq<OrderBookEntry>, dir: Direction)
    ensures multiset(Insert(x, s, dir)) == multiset(s) + multiset{x}
    decreases |s|, 1
  {
    if s != [] && !Before(x, s[0], dir) {
      InsertPermutes(x, s[1..], dir);
      assert s == [s[0]] + s[1..];
    }
  }

  /** The head kept by Insert precedes everything inserted behind it. */
  lemma HeadPrecedes(h: OrderBookEntry, x: OrderBookEntry, rest: seq<OrderBookEntry>, t: seq<OrderBookEntry>, dir: Direction)
    requires forall k :: 0 <= k < |rest| ==> Before(h, rest[k], dir)
    requires !Before(x, h, dir)
    requires multiset(t) == multiset(rest) + multiset{x}
    ensures forall k :: 0 <= k < |t| ==> Before(h, t[k], dir)
  {
    forall k | 0 <= k < |t| ensures Before(h, t[k], dir) {
      assert t[k] in multiset(t);
      if t[k] != x {
        assert t[k] in multiset(rest);
        var m :| 0 <= m < |rest| && rest[m] == t[k];
      }
    }
  }

  /** Stable insertion sort: OrderBy / OrderByDescending on the price. */
  function SortBy(s: seq<OrderBookEntry>, dir: Direction): (r: seq<OrderBookEntry>)
    ensures |r| == |s|
    ensures Ordered(r, dir)
    ensures multiset(r) == multiset(s)
  {
    if s == [] then []
    else
      assert s == [s[0]] + s[1..];
      InsertPermutes(s[0], SortBy(s[1..], dir), dir);
      Insert(s[0], SortBy(s[1..], dir), dir)
  }

  /** The entries of a side at price `p`, in their order on the side. */
  function AtPrice(s: seq<OrderBookEntry>, p: real): seq<OrderBookEntry>
  {
    if s == [] then [] else (if s[0].price == p then [s[0]] else []) + AtPrice(s[1..], p)
  }

  lemma AtPriceCons(a: OrderBookEntry, u: seq<OrderBookEntry>, p: real)
    ensures AtPrice([a] + u, p) == (if a.price == p then [a] else []) + AtPrice(u, p)
  {
    assert ([a] + u)[1..] == u;
  }

  lemma OrderedTail(s: seq<OrderBookEntry>, dir: Direction)
    requires s != [] && Ordered(s, dir)
    ensures Ordered(s[1..], dir)
  {
    forall i, j | 0 <= i < j < |s| - 1 ensures Before(s[1..][i], s[1..][j], dir) {
      assert Before(s[i + 1], s[j + 1], dir);
    }
  }

  /** Inserting `x` puts it ahead of every entry of its own price. */
  lemma {:induction false} InsertAtPrice(x: OrderBookEntry, s: seq<OrderBookEntry>, dir: Direction, p: real)
    ensures AtPrice(Insert(x, s, dir), p) == (if x.price == p then [x] else []) + AtPrice(s, p)
  {
    if s == [] {
    } else if Before(x, s[0], dir) {
      AtPriceCons(x, s, p);
    } else {
      InsertAtPrice(x, s[1..], dir, p);
      InsertBehindHead(x, s, dir, p);
    }
  }

  /** The step of InsertAtPrice where `x` goes behind the head of `s`. */
  lemma InsertBehindHead(x: OrderBookEntry, s: seq<OrderBookEntry>, dir: Direction, p: real)
    requires s != [] && !Before(x, s[0], dir)
    requires AtPrice(Insert(x, s[1..], dir), p) == (if x.price == p then [x] else []) + AtPrice(s[1..], p)
    ensures AtPrice(Insert(x, s, dir), p) == (if x.price == p then [x] else []) + AtPrice(s, p)
  {
    var t := Insert(x, s[1..], dir);
    var head := if s[0].price == p then [s[0]] else [];
    var mine := if x.price == p then [x] else [];
    // x ranks strictly after s[0], so at most one of them has price p
    assert head == [] || mine == [];
    calc {
      AtPrice(Insert(x, s, dir), p);
      { assert Insert(x, s, dir) == [s[0]] + t; }
      AtPrice([s[0]] + t, p);
      { AtPriceCons(s[0], t, p); }
      head + AtPrice(t, p);
      head + (mine + AtPrice(s[1..], p));
      mine + (head + AtPrice(s[1..], p));
      mine + AtPrice(s, p);
    }
  }

  /**
   * The sort is stable: the entries of any one price keep their input order,
   * as LINQ's OrderBy and OrderByDescending guarantee.
   */
  lemma {:induction false} SortByIsStable(s: seq<OrderBookEntry>, dir: Direction, p: real)
    ensures AtPrice(SortBy(s, dir), p) == AtPrice(s, p)
  {
    if s != [] {
      SortByIsStable(s[1..], dir, p);
      InsertAtPrice(s[0], SortBy(s[1..], dir), dir, p);
    }
  }

  lemma {:induction false} AtPriceOfPrefix(u: seq<OrderBookEntry>, n: nat, p: real)
    requires n <= |u|
    ensures AtPrice(u[..n], p) <= AtPrice(u, p)
  {
    if n > 0 {
      AtPriceOfPrefix(u[1..], n - 1, p);
      assert u[..n][1..] == u[1..][..n - 1];
    }
  }

  /**
   * `.OrderBy(...).Take(5)`: the kept entries are min(5, n) entries of the
   * input, in order, and every entry left out comes after every entry kept.
   */
  /**
   * `top` is an ordered selection from `side` in which no entry left out ranks
   * ahead of a kept one.
   */
  predicate IsTopOf(top: seq<OrderBookEntry>, side: seq<OrderBookEntry>, dir: Direction)
  {
    && Ordered(top, dir)
    && multiset(top) <= multiset(side)
    && (forall e, t | e in multiset(side) - multiset(top) && t in top :: Before(t, e, dir))
  }

  function Top(entries: seq<OrderBookEntry>, dir: Direction): (top: seq<OrderBookEntry>)
    ensures |top| == Min(TopDepth, |entries|)
    ensures Ordered(top, dir)
    ensures multiset(top) <= multiset(entries)
    ensures forall e, t | e in multiset(entries) - multiset(top) && t in top :: Before(t, e, dir)
  {
    var sorted := SortBy(entries, dir);
    var n := Min(TopDepth, |sorted|);
    TakeSplits(sorted, n, dir);
    sorted[..n]
  }

  lemma TakeSplits(sorted: seq<OrderBookEntry>, n: nat, dir: Direction)
    requires n <= |sorted| && Ordered(sorted, dir)
    ensures multiset(sorted[..n]) <= multiset(sorted)
    ensures forall e, t | e in multiset(sorted) - multiset(sorted[..n]) && t in sorted[..n] :: Before(t, e, dir)
  {
    assert sorted == sorted[..n] + sorted[n..];
    assert multiset(sorted) == multiset(sorted[..n]) + multiset(sorted[n..]);
    forall e, t | e in multiset(sorted) - multiset(sorted[..n]) && t in sorted[..n]
      ensures Before(t, e, dir)
    {
      assert e in multiset(sorted[n..]);
      var j :| n <= j < |sorted| && sorted[j] == e;
      var i :| 0 <= i < n && sorted[i] == t;
    }
  }

  /**
   * Among entries of equal price, the kept ones are the first in input order:
   * at every price the kept entries are a prefix of the input's.
   */
  lemma TopKeepsFirstAtEachPrice(entries: seq<OrderBookEntry>, dir: Direction, p: real)
    ensures AtPrice(Top(entries, dir), p) <= AtPrice(entries, p)
  {
    SortByIsStable(entries, dir, p);
    AtPriceOfPrefix(SortBy(entries, dir), Min(TopDepth, |entries|), p);
  }

  /** `side.Count > 0 ? side[0].Price : 0`. */
  function BestPrice(top: seq<OrderBookEntry>): real
  {
    if |top| > 0 then top[0].price else 0.0
  }

  /** `side.Sum(e => e.Price * e.Quantity)`. */
  function SumVolume(s: seq<OrderBookEntry>): real
  {
    if s == [] then 0.0 else s[0].Volume() + SumVolume(s[1..])
  }

  /** The derived part of MarketStats that both exchanges compute alike. */
  datatype Depth = Depth(
    topBids: seq<OrderBookEntry>,
    topAsks: seq<OrderBookEntry>,
    bestBidPrice: real,
    bestAskPrice: real,
    bidVolume: real,
    askVolume: real)

  /** The calculator: fails (a parse exception) exactly when some level of either side is malformed. */
  function Summarize(bids: Levels, asks: Levels, parse: string -> Option<real>): (r: Option<Depth>)
    ensures r.Some? <==> ParseLevels(bids, parse).Some? && ParseLevels(asks, parse).Some?
    ensures r.Some? ==>
      && |r.value.topBids| == Min(TopDepth, |bids|)
      && |r.value.topAsks| == Min(TopDepth, |asks|)
      && Ordered(r.value.topBids, Descending)
      && Ordered(r.value.topAsks, Ascending)
      && multiset(r.value.topBids) <= multiset(ParseLevels(bids, parse).value)
      && multiset(r.value.topAsks) <= multiset(ParseLevels(asks, parse).value)
      && r.value.bestBidPrice == BestPrice(r.value.topBids)
      && r.value.bestAskPrice == BestPrice(r.value.topAsks)
      && r.value.bidVolume == SumVolume(r.value.topBids)
      && r.value.askVolume == SumVolume(r.value.topAsks)
  {
    match (ParseLevels(bids, parse), ParseLevels(asks, parse))
    case (Some(b), Some(a)) =>
      var topBids := Top(b, Descending);
      var topAsks := Top(a, Ascending);
      Some(Depth(topBids, topAsks, BestPrice(topBids), BestPrice(topAsks), SumVolume(topBids), SumVolume(topAsks)))
    case _ => None
  }

  /**
   * The kept entries are the top five and not merely five ordered entries: no
   * entry left out ranks ahead of a kept one on either side.
   */
  lemma SummaryTopFive(bids: Levels, asks: Levels, parse: string -> Option<real>)
    requires Summarize(bids, asks, parse).Some?
    ensures var d := Summarize(bids, asks, parse).value;
      && IsTopOf(d.topBids, ParseLevels(bids, parse).value, Descending)
      && IsTopOf(d.topAsks, ParseLevels(asks, parse).value, Ascending)
  {
  }

  /**
   * The best bid of a summary is the highest bid of the whole side and the best ask
   * the lowest ask, not merely the best of the kept entries; an empty side has 0.
   */
  lemma SummaryBestIsExtreme(bids: Levels, asks: Levels, parse: string -> Option<real>)
    requires Summarize(bids, asks, parse).Some?
    ensures var d := Summarize(bids, asks, parse).value;
      var b := ParseLevels(bids, parse).value;
      |b| > 0 ==> (exists e | e in b :: e.price == d.bestBidPrice) && (forall e | e in b :: e.price <= d.bestBidPrice)
    ensures var d := Summarize(bids, asks, parse).value;
      var a := ParseLevels(asks, parse).value;
      |a| > 0 ==> (exists e | e in a :: e.price == d.bestAskPrice) && (forall e | e in a :: d.bestAskPrice <= e.price)
    ensures |bids| == 0 ==> Summarize(bids, asks, parse).value.bestBidPrice == 0.0
    ensures |asks| == 0 ==> Summarize(bids, asks, parse).value.bestAskPrice == 0.0
  {
    var b := ParseLevels(bids, parse).value;
    var a := ParseLevels(asks, parse).value;
    if |b| > 0 {
      BestIsExtreme(b, Descending);
    }
    if |a| > 0 {
      BestIsExtreme(a, Ascending);
    }
  }

  /**
   * The best price of a non-empty side is the price of one of its entries and
   * is at least as good as every entry's: the highest bid, the lowest ask.
   */
  lemma BestIsExtreme(entries: seq<OrderBookEntry>, dir: Direction)
    requires |entries| > 0
    ensures exists e | e in entries :: e.price == BestPrice(Top(entries, dir))
    ensures forall e | e in entries :: Before(Top(entries, dir)[0], e, dir)
  {
    var top := Top(entries, dir);
    assert top[0] in multiset(top);
    assert top[0] in multiset(entries);
    forall e | e in entries ensures Before(top[0], e, dir) {
      if e in top {
        var j :| 0 <= j < |top| && top[j] == e;
        if j > 0 {
          assert Before(top[0], top[j], dir);
        }
      } else {
        assert e in multiset(entries);
        assert e !in multiset(top);
        assert e in multiset(entries) - multiset(top);
      }
    }
  }
}
