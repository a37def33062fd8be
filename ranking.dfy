/**
 * The three Top-N reports over the aggregate table: each view sorts the
 * aggregates by one volume column, largest first, keeps the first `n`
 * rows, numbers them from 1 and projects seven columns.
 */
module Ranking {
  import opened Normalizer
  import opened Aggregator

  /** The report size the three views use when the caller gives none. */
  const DefaultCount: int := 20

  /** The three reports: net buyers, net sellers, day traders. */
  datatype View = NetBuy | NetSell | DayTrade

  /** The column a view sorts by. */
  function Key(v: View, a: Aggregate): real
  {
    match v
    case NetBuy => a.netBuyLots
    case NetSell => a.netSellLots
    case DayTrade => a.dayTradeLots
  }

  /** The value column shown next to the key: net buy value, net sell value or day-trade P&L. */
  function Value(v: View, a: Aggregate): real
  {
    match v
    case NetBuy => a.netBuyValue
    case NetSell => a.netSellValue
    case DayTrade => a.dayTradePnl
  }

  /**
   * One row of a report: its rank, the broker, the two sides, the view's
   * volume column and the view's value column.
   */
  datatype RankRow = RankRow(rank: nat, broker: string, buyLots: real, buyPrice: real,
                             sellLots: real, sellPrice: real, lots: real, amount: real)

  /** The column selection of a view applied to one aggregate at a given rank. */
  function Project(v: View, a: Aggregate, rank: nat): RankRow
  {
    RankRow(rank, a.broker, a.buyLots, a.buyPrice, a.sellLots, a.sellPrice, Key(v, a), Value(v, a))
  }

  /** `r` is the projection, at `rank`, of some aggregate of `aggs`. */
  predicate Shows(v: View, aggs: seq<Aggregate>, r: RankRow, rank: nat)
  {
    exists a :: a in aggs && r == Project(v, a, rank)
  }

  /** Non-increasing in the view's key. */
  predicate Descending(v: View, s: seq<Aggregate>)
  {
    forall i, j :: 0 <= i < j < |s| ==> Key(v, s[i]) >= Key(v, s[j])
  }

  /** No key in `s` exceeds `bound`. */
  predicate Bounded(v: View, bound: real, s: seq<Aggregate>)
  {
    forall k :: 0 <= k < |s| ==> Key(v, s[k]) <= bound
  }

  /**
   * Puts `x` in front of the first element whose key is not larger than its
   * own, so that `x` stays ahead of the elements it ties with.
   */
  function Insert(v: View, x: Aggregate, s: seq<Aggregate>): (r: seq<Aggregate>)
    ensures multiset(r) == multiset(s) + multiset{x}
  {
    if s == [] || Key(v, s[0]) <= Key(v, x) then
      [x] + s
    else
      assert s == [s[0]] + s[1..];
      [s[0]] + Insert(v, x, s[1..])
  }

  /**
   * The descending sort of a view. Ties keep their input order: the sort the
   * reports use does not promise that, so this is one admissible order.
   */
  function SortDesc(v: View, s: seq<Aggregate>): (r: seq<Aggregate>)
    ensures multiset(r) == multiset(s)
    ensures Descending(v, r)
  {
    if s == [] then []
    else
      assert s == [s[0]] + s[1..];
      var t := SortDesc(v, s[1..]);
      InsertDescending(v, s[0], t);
      Insert(v, s[0], t)
  }

  /** Inserting into a descending sequence keeps it descending. */
  lemma {:induction false} InsertDescending(v: View, x: Aggregate, s: seq<Aggregate>)
    requires Descending(v, s)
    ensures Descending(v, Insert(v, x, s))
  {
    if s == [] || Key(v, s[0]) <= Key(v, x) {
      ConsDescending(v, x, s);
    } else {
      InsertDescending(v, x, s[1..]);
      InsertBounded(v, x, s[1..], Key(v, s[0]));
      ConsDescending(v, s[0], Insert(v, x, s[1..]));
    }
  }

  /** Inserting an element under the bound keeps every key under it. */
  lemma {:induction false} InsertBounded(v: View, x: Aggregate, s: seq<Aggregate>, bound: real)
    requires Bounded(v, bound, s) && Key(v, x) <= bound
    ensures Bounded(v, bound, Insert(v, x, s))
  {
    if s != [] && Key(v, s[0]) > Key(v, x) {
      InsertBounded(v, x, s[1..], bound);
      var t := Insert(v, x, s[1..]);
      assert forall k :: 1 <= k < |t| + 1 ==> ([s[0]] + t)[k] == t[k - 1];
    }
  }

  /** An element on top of a descending sequence it bounds. */
  lemma ConsDescending(v: View, y: Aggregate, t: seq<Aggregate>)
    requires Descending(v, t)
    requires forall k :: 0 <= k < |t| ==> Key(v, t[k]) <= Key(v, y)
    ensures Descending(v, [y] + t)
  {
    forall i, j | 0 <= i < j < |t| + 1
      ensures Key(v, ([y] + t)[i]) >= Key(v, ([y] + t)[j])
    {
      assert ([y] + t)[j] == t[j - 1];
      if i > 0 {
        assert ([y] + t)[i] == t[i - 1];
      }
    }
  }

  function Max(x: int, y: int): int
  {
    if x >= y then x else y
  }

  /**
   * The number of rows `head(n)` keeps out of `len`: the first `n`, or, for
   * a negative `n`, all but the last `-n`.
   */
  function HeadLength(len: nat, n: int): nat
  {
    if n >= 0 then Min(n, len) else Max(0, len + n)
  }

  /** `head(n)` of a table: a prefix of it. */
  function Head<T>(s: seq<T>, n: int): (r: seq<T>)
    ensures |r| == HeadLength(|s|, n)
    ensures r == s[..|r|]
  {
    if n >= 0 then
      if n <= |s| then s[..n] else s
    else if |s| + n <= 0 then []
    else s[..|s| + n]
  }

  /** The report of a view: sort, keep the first `n`, number from 1, project. */
  function Top(v: View, aggs: seq<Aggregate>, n: int): (rows: seq<RankRow>)
    ensures |rows| == HeadLength(|aggs|, n)
    ensures forall i :: 0 <= i < |rows| ==> rows[i].rank == i + 1
    ensures forall i, j :: 0 <= i < j < |rows| ==> rows[i].lots >= rows[j].lots
    ensures forall i :: 0 <= i < |rows| ==> Shows(v, aggs, rows[i], i + 1)
    ensures aggs == [] ==> rows == []
  {
    var sorted := SortDesc(v, aggs);
    var kept := Head(sorted, n);
    PrefixOfSorted(v, aggs, sorted, kept);
    NumberShows(v, aggs, kept);
    Number(v, kept)
  }

  /** Rank and project a sequence of aggregates in order. */
  function Number(v: View, kept: seq<Aggregate>): (rows: seq<RankRow>)
    ensures |rows| == |kept|
    ensures forall i :: 0 <= i < |rows| ==> rows[i] == Project(v, kept[i], i + 1)
  {
    seq(|kept|, i requires 0 <= i < |kept| => Project(v, kept[i], i + 1))
  }

  /** Numbering aggregates drawn from `aggs` gives rows that each project one of `aggs`. */
  lemma NumberShows(v: View, aggs: seq<Aggregate>, kept: seq<Aggregate>)
    requires forall i :: 0 <= i < |kept| ==> kept[i] in aggs
    ensures forall i :: 0 <= i < |Number(v, kept)| ==> Shows(v, aggs, Number(v, kept)[i], i + 1)
  {
    forall i | 0 <= i < |Number(v, kept)|
      ensures Shows(v, aggs, Number(v, kept)[i], i + 1)
    {
      assert kept[i] in aggs && Number(v, kept)[i] == Project(v, kept[i], i + 1);
    }
  }

  /** A prefix of a sorted copy of `aggs` is descending and drawn from `aggs`. */
  lemma PrefixOfSorted(v: View, aggs: seq<Aggregate>, sorted: seq<Aggregate>, kept: seq<Aggregate>)
    requires multiset(sorted) == multiset(aggs) && Descending(v, sorted)
    requires |kept| <= |sorted| && kept == sorted[..|kept|]
    ensures |sorted| == |aggs|
    ensures Descending(v, kept)
    ensures forall i :: 0 <= i < |kept| ==> kept[i] in aggs
  {
    assert |sorted| == |multiset(sorted)| == |multiset(aggs)| == |aggs|;
    forall i | 0 <= i < |kept|
      ensures kept[i] in aggs
    {
      assert kept[i] == sorted[i] && sorted[i] in multiset(sorted);
    }
  }

  /** `top20_buy`: the largest net buyers with their net buy value. */
  function TopBuy(aggs: seq<Aggregate>, n: int := DefaultCount): (rows: seq<RankRow>)
    ensures |rows| == HeadLength(|aggs|, n)
    ensures forall i :: 0 <= i < |rows| ==> rows[i].rank == i + 1
    ensures forall i, j :: 0 <= i < j < |rows| ==> rows[i].lots >= rows[j].lots
    ensures forall i :: 0 <= i < |rows| ==> Shows(NetBuy, aggs, rows[i], i + 1)
  {
    Top(NetBuy, aggs, n)
  }

  /** `top20_sell`: the largest net sellers with their net sell value. */
  function TopSell(aggs: seq<Aggregate>, n: int := DefaultCount): (rows: seq<RankRow>)
    ensures |rows| == HeadLength(|aggs|, n)
    ensures forall i :: 0 <= i < |rows| ==> rows[i].rank == i + 1
    ensures forall i, j :: 0 <= i < j < |rows| ==> rows[i].lots >= rows[j].lots
    ensures forall i :: 0 <= i < |rows| ==> Shows(NetSell, aggs, rows[i], i + 1)
  {
    Top(NetSell, aggs, n)
  }

  /** `top20_intraday`: the largest day traders with their day-trade P&L. */
  function TopIntraday(aggs: seq<Aggregate>, n: int := DefaultCount): (rows: seq<RankRow>)
    ensures |rows| == HeadLength(|aggs|, n)
    ensures forall i :: 0 <= i < |rows| ==> rows[i].rank == i + 1
    ensures forall i, j :: 0 <= i < j < |rows| ==> rows[i].lots >= rows[j].lots
    ensures forall i :: 0 <= i < |rows| ==> Shows(DayTrade, aggs, rows[i], i + 1)
  {
    Top(DayTrade, aggs, n)
  }

  /** Called without a count, each report shows the first 20 aggregates, or all of them when there are fewer. */
  lemma DefaultReportSize(aggs: seq<Aggregate>)
    ensures |TopBuy(aggs)| == |TopSell(aggs)| == |TopIntraday(aggs)| == Min(|aggs|, 20)
  {
  }

  /**
   * A report holds the top entries: the aggregates split into the ones
   * shown, in report order, and the rest, and no aggregate left out has a
   * larger key than any aggregate shown.
   */
  lemma TopIsLargest(v: View, aggs: seq<Aggregate>, n: int) returns (shown: seq<Aggregate>, rest: seq<Aggregate>)
    ensures multiset(shown) + multiset(rest) == multiset(aggs)
    ensures |shown| == |Top(v, aggs, n)|
    ensures forall i :: 0 <= i < |shown| ==> Top(v, aggs, n)[i] == Project(v, shown[i], i + 1)
    ensures forall i, j :: 0 <= i < |shown| && 0 <= j < |rest| ==> Key(v, rest[j]) <= Key(v, shown[i])
  {
    var sorted := SortDesc(v, aggs);
    var k := |Head(sorted, n)|;
    shown, rest := sorted[..k], sorted[k..];
    assert sorted == shown + rest;
    forall i, j | 0 <= i < |shown| && 0 <= j < |rest|
      ensures Key(v, rest[j]) <= Key(v, shown[i])
    {
      assert shown[i] == sorted[i] && rest[j] == sorted[k + j];
    }
  }

  /** Every view's key of a computed aggregate is a volume, so never negative. */
  lemma KeyNonNegative(v: View, broker: string, rs: seq<Record>)
    ensures Key(v, Summary(broker, rs)) >= 0.0
  {
    SummaryColumns(broker, rs);
  }

  /**
   * A broker without any positive volume has key 0 in every view, so no
   * aggregate of the table sorts below it.
   */
  lemma IdleBrokerLast(v: View, broker: string, rs: seq<Record>)
    requires forall p :: 0 <= p < |rs| ==> !Traded(rs[p], broker, Buy) && !Traded(rs[p], broker, Sell)
    ensures Key(v, Summary(broker, rs)) == 0.0
    ensures forall k :: 0 <= k < |Aggregates(rs)| ==> Key(v, Aggregates(rs)[k]) >= Key(v, Summary(broker, rs))
  {
    IdleBrokerIsZero(broker, rs);
    forall k | 0 <= k < |Aggregates(rs)|
      ensures Key(v, Aggregates(rs)[k]) >= 0.0
    {
      KeyNonNegative(v, Brokers(rs)[k], rs);
    }
  }
}
