/**
 * The per-broker aggregator of the trade report (`df2calculate`).
 *
 * Records are grouped by exact broker-string equality, brokers are visited in
 * the order of their first appearance, and for each broker the buy side and
 * the sell side are reduced separately over the records with a positive
 * volume on that side. Monetary columns are in units of ten thousand (萬),
 * volume columns in lots (張) of 1000 shares. All values here are the exact
 * values before the source rounds them for presentation.
 */
module Aggregator {
  import opened Normalizer

  datatype Side = Buy | Sell

  /**
   * One row of the aggregate table. The fields follow the columns of the
   * source's result dictionary: 買入(張), 買入價, 賣出(張), 賣出價, 當沖量(張),
   * 總買進金額(萬), 總賣出金額(萬), 淨買入(張), 淨賣出(張), 淨買額(萬), 淨賣額(萬),
   * 當沖盈虧(萬).
   */
  datatype Aggregate = Aggregate(
    broker: string,
    buyLots: real, buyPrice: real, sellLots: real, sellPrice: real,
    dayTradeLots: real, buyValue: real, sellValue: real,
    netBuyLots: real, netSellLots: real, netBuyValue: real, netSellValue: real,
    dayTradePnl: real)

  function Volume(r: Record, side: Side): int
  {
    match side
    case Buy => r.buyShares
    case Sell => r.sellShares
  }

  /** A record of `broker` with a positive volume on `side`. */
  predicate Traded(r: Record, broker: string, side: Side)
  {
    r.broker == broker && Volume(r, side) > 0
  }

  function Min(x: int, y: int): int
  {
    if x <= y then x else y
  }

  function MinReal(x: real, y: real): real
  {
    if x <= y then x else y
  }

  function Abs(x: int): int
  {
    if x < 0 then -x else x
  }

  /** Shares to lots (張). */
  function Lots(shares: int): real
  {
    shares as real / 1000.0
  }

  /** What one record adds to `broker`'s share total on `side`. */
  function SharesIn(r: Record, broker: string, side: Side): int
  {
    if Traded(r, broker, side) then Volume(r, side) else 0
  }

  /** What one record adds to `broker`'s traded amount on `side`. */
  function AmountIn(r: Record, broker: string, side: Side): real
  {
    if Traded(r, broker, side) then r.price * Volume(r, side) as real else 0.0
  }

  /** The sum of the positive `side` volumes of `broker`'s records. */
  function TotalShares(rs: seq<Record>, broker: string, side: Side): int
  {
    if rs == [] then 0 else SharesIn(rs[0], broker, side) + TotalShares(rs[1..], broker, side)
  }

  /**
   * A side total is never negative, and it is zero exactly when the broker
   * has no positive volume on that side.
   */
  lemma {:induction false} TotalSharesZero(rs: seq<Record>, broker: string, side: Side)
    ensures TotalShares(rs, broker, side) >= 0
    ensures TotalShares(rs, broker, side) == 0 <==> forall p :: 0 <= p < |rs| ==> !Traded(rs[p], broker, side)
  {
    if rs != [] {
      TotalSharesZero(rs[1..], broker, side);
      assert forall p :: 1 <= p < |rs| ==> rs[p] == rs[1..][p - 1];
    }
  }

  /** The sum of price times volume over the same records as `TotalShares`. */
  function TotalAmount(rs: seq<Record>, broker: string, side: Side): real
  {
    if rs == [] then 0.0 else AmountIn(rs[0], broker, side) + TotalAmount(rs[1..], broker, side)
  }

  /** The share-weighted average price, guarded against a zero total. */
  function AveragePrice(amount: real, shares: int): real
  {
    if shares > 0 then amount / shares as real else 0.0
  }

  /**
   * The columns of one broker's row computed from the two side totals and
   * the two average prices: the day trade, the net position and its value.
   */
  function Finish(broker: string, buyShares: int, buyAmount: real, buyPrice: real,
                  sellShares: int, sellAmount: real, sellPrice: real): Aggregate
  {
    var dayTrade := Min(buyShares, sellShares);
    var profitLoss := if dayTrade != 0 then (sellPrice - buyPrice) * 1000.0 else 0.0;
    var net := buyShares - sellShares;
    var netBuyAmount := if net > 0 && buyPrice != 0.0 then net as real * buyPrice / 10000.0 else 0.0;
    var netSellAmount := if net <= 0 && sellPrice != 0.0 then Abs(net) as real * sellPrice / 10000.0 else 0.0;
    Aggregate(
      broker,
      Lots(buyShares), buyPrice, Lots(sellShares), sellPrice,
      Lots(dayTrade),
      (if buyShares > 0 then buyAmount else 0.0) / 10000.0,
      (if sellShares > 0 then sellAmount else 0.0) / 10000.0,
      if net > 0 then Lots(net) else 0.0,
      if net < 0 then Lots(Abs(net)) else 0.0,
      netBuyAmount, netSellAmount,
      profitLoss * dayTrade as real / (10000.0 * 1000.0))
  }

  /**
   * The aggregate of one broker over the normalised records: the exact values
   * the loop body of `df2calculate` computes for it.
   */
  function Summary(broker: string, rs: seq<Record>): Aggregate
  {
    var buyShares, buyAmount := TotalShares(rs, broker, Buy), TotalAmount(rs, broker, Buy);
    var sellShares, sellAmount := TotalShares(rs, broker, Sell), TotalAmount(rs, broker, Sell);
    Finish(broker, buyShares, buyAmount, AveragePrice(buyAmount, buyShares),
                   sellShares, sellAmount, AveragePrice(sellAmount, sellShares))
  }

  /**
   * The relations between the columns of one broker's aggregate: volumes are
   * non-negative, the day-trade volume is the smaller side, the day-trade
   * P&L is the price spread over the day-trade volume in the source's
   * scaling (and zero without day trades), the net position falls on at
   * most one side and is valued at that side's average price.
   */
  lemma SummaryColumns(broker: string, rs: seq<Record>)
    ensures var a := Summary(broker, rs);
            && a.broker == broker
            && a.buyLots >= 0.0 && a.sellLots >= 0.0
            && a.dayTradeLots == MinReal(a.buyLots, a.sellLots)
            && (a.dayTradeLots == 0.0 ==> a.dayTradePnl == 0.0)
            && a.dayTradePnl == (a.sellPrice - a.buyPrice) * 1000.0 * (a.dayTradeLots * 1000.0) / (10000.0 * 1000.0)
            && a.netBuyLots >= 0.0 && a.netSellLots >= 0.0
            && (a.netBuyLots == 0.0 || a.netSellLots == 0.0)
            && a.netBuyLots - a.netSellLots == a.buyLots - a.sellLots
            && a.netBuyValue == a.netBuyLots * a.buyPrice / 10.0
            && a.netSellValue == a.netSellLots * a.sellPrice / 10.0
            && (a.netBuyValue == 0.0 || a.netSellValue == 0.0)
  {
    TotalSharesZero(rs, broker, Buy);
    TotalSharesZero(rs, broker, Sell);
  }

  /** `df["券商"].unique()`: each broker once, in order of first appearance. */
  function Brokers(rs: seq<Record>): (u: seq<string>)
    ensures forall i, j :: 0 <= i < j < |u| ==> u[i] != u[j]
    ensures forall p :: 0 <= p < |rs| ==> rs[p].broker in u
    ensures forall b :: b in u ==> exists p :: 0 <= p < |rs| && rs[p].broker == b
  {
    if rs == [] then []
    else
      var init := rs[..|rs| - 1];
      var u := Brokers(init);
      var b := rs[|rs| - 1].broker;
      assert forall p :: 0 <= p < |init| ==> rs[p] == init[p];
      if b in u then u else u + [b]
  }

  /**
   * `Brokers` lists brokers in order of first appearance: wherever a later
   * broker of the list occurs in the records, an earlier one has already
   * occurred before it.
   */
  lemma {:induction false} BrokersFirstAppearance(rs: seq<Record>)
    ensures var u := Brokers(rs);
            forall i, j, p :: 0 <= i < j < |u| && 0 <= p < |rs| && rs[p].broker == u[j]
              ==> exists q :: 0 <= q < p && rs[q].broker == u[i]
  {
    var u := Brokers(rs);
    forall i, j, p | 0 <= i < j < |u| && 0 <= p < |rs| && rs[p].broker == u[j]
      ensures exists q :: 0 <= q < p && rs[q].broker == u[i]
    {
      var q := EarlierOccurrence(rs, i, j, p);
    }
  }

  /** The witness of `BrokersFirstAppearance` for one pair of brokers and one occurrence. */
  lemma {:induction false} EarlierOccurrence(rs: seq<Record>, i: nat, j: nat, p: nat) returns (q: nat)
    requires i < j < |Brokers(rs)| && p < |rs| && rs[p].broker == Brokers(rs)[j]
    ensures q < p && rs[q].broker == Brokers(rs)[i]
    decreases |rs|
  {
    var init := rs[..|rs| - 1];
    var u := Brokers(init);
    BrokersSnoc(rs);
    if j < |u| {
      var p' := OccurrenceInInit(rs, j, p);
      q := EarlierOccurrence(init, i, j, p');
      assert rs[q] == init[q];
    } else {
      q := FirstInInit(rs, i, p);
    }
  }

  /** The broker list of `rs` extends that of all but its last record by at most that record's broker. */
  lemma BrokersSnoc(rs: seq<Record>)
    requires rs != []
    ensures var u, last := Brokers(rs[..|rs| - 1]), rs[|rs| - 1].broker;
            Brokers(rs) == if last in u then u else u + [last]
  {
  }

  /** An occurrence of an older broker, moved into all but the last record. */
  lemma OccurrenceInInit(rs: seq<Record>, j: nat, p: nat) returns (p': nat)
    requires rs != [] && j < |Brokers(rs[..|rs| - 1])| && p < |rs|
    requires var u, last := Brokers(rs[..|rs| - 1]), rs[|rs| - 1].broker;
             Brokers(rs) == if last in u then u else u + [last]
    requires rs[p].broker == Brokers(rs)[j]
    ensures p' <= p && p' < |rs| - 1 && rs[..|rs| - 1][p'].broker == Brokers(rs[..|rs| - 1])[j]
  {
    var init, u := rs[..|rs| - 1], Brokers(rs[..|rs| - 1]);
    assert Brokers(rs)[j] == u[j] && u[j] in u;
    if p < |init| {
      p' := p;
      assert init[p'] == rs[p];
    } else {
      p' :| 0 <= p' < |init| && init[p'].broker == u[j];
    }
  }

  /** When the last record brings a new broker, every older broker occurs before it. */
  lemma FirstInInit(rs: seq<Record>, i: nat, p: nat) returns (q: nat)
    requires rs != [] && p < |rs| && i < |Brokers(rs[..|rs| - 1])|
    requires var u, last := Brokers(rs[..|rs| - 1]), rs[|rs| - 1].broker;
             last !in u && Brokers(rs) == u + [last] && rs[p].broker == last
    ensures q < p && rs[q].broker == Brokers(rs)[i]
  {
    var init, u := rs[..|rs| - 1], Brokers(rs[..|rs| - 1]);
    assert forall k :: 0 <= k < |init| ==> rs[k] == init[k] && init[k].broker in u;
    assert Brokers(rs)[i] == u[i] && u[i] in u;
    q :| 0 <= q < |init| && init[q].broker == u[i];
  }

  /** The aggregate table: one `Summary` per broker, in `Brokers` order. */
  function Aggregates(rs: seq<Record>): seq<Aggregate>
  {
    seq(|Brokers(rs)|, k requires 0 <= k < |Brokers(rs)| => Summary(Brokers(rs)[k], rs))
  }

  /**
   * One side of the loop body of `df2calculate` (the buy block and the sell
   * block are the same code on two columns): the share total over the
   * broker's records with a positive volume, and the traded amount and the
   * average price, both zero when there are no shares.
   */
  method SideTotals(broker: string, rs: seq<Record>, side: Side) returns (shares: int, amount: real, average: real)
    ensures shares == TotalShares(rs, broker, side)
    ensures amount == if shares > 0 then TotalAmount(rs, broker, side) else 0.0
    ensures average == AveragePrice(TotalAmount(rs, broker, side), shares)
  {
    shares := TotalShares(rs, broker, side);
    if shares > 0 {
      amount := TotalAmount(rs, broker, side);
      average := amount / shares as real;
    } else {
      amount := 0.0;
      average := 0.0;
    }
  }

  /**
   * The body of the loop of `df2calculate` for one broker: the two sides,
   * then the day trade and the net position.
   */
  method Summarize(broker: string, rs: seq<Record>) returns (row: Aggregate)
    ensures row == Summary(broker, rs)
  {
    var totalBuyShares, totalBuyAmount, avgBuyPrice := SideTotals(broker, rs, Buy);
    var totalSellShares, totalSellAmount, avgSellPrice := SideTotals(broker, rs, Sell);
    assert Summary(broker, rs) == Finish(broker, totalBuyShares, totalBuyAmount, avgBuyPrice,
                                                 totalSellShares, totalSellAmount, avgSellPrice);
    row := Settle(broker, totalBuyShares, totalBuyAmount, avgBuyPrice, totalSellShares, totalSellAmount, avgSellPrice);
  }

  /**
   * The rest of the loop body once both sides are totalled: the day trade
   * and the net position, each assigned step by step in the branches the
   * source takes, and the row.
   */
  method Settle(broker: string, totalBuyShares: int, totalBuyAmount: real, avgBuyPrice: real,
                totalSellShares: int, totalSellAmount: real, avgSellPrice: real) returns (row: Aggregate)
    requires totalBuyShares <= 0 ==> totalBuyAmount == 0.0
    requires totalSellShares <= 0 ==> totalSellAmount == 0.0
    ensures row == Finish(broker, totalBuyShares, totalBuyAmount, avgBuyPrice,
                          totalSellShares, totalSellAmount, avgSellPrice)
  {
    ghost var spec := Finish(broker, totalBuyShares, totalBuyAmount, avgBuyPrice,
                             totalSellShares, totalSellAmount, avgSellPrice);
    var dayTradeVolume := Min(totalBuyShares, totalSellShares);
    var profitLoss := if dayTradeVolume != 0 then (avgSellPrice - avgBuyPrice) * 1000.0 else 0.0;
    var dayTradePnl := profitLoss * dayTradeVolume as real / (10000.0 * 1000.0);
    assert dayTradePnl == spec.dayTradePnl;

    var netShares := totalBuyShares - totalSellShares;
    var netBuyAmount, netSellAmount;
    if netShares > 0 {
      netBuyAmount := if avgBuyPrice != 0.0 then netShares as real * avgBuyPrice / 10000.0 else 0.0;
      netSellAmount := 0.0;
      assert netBuyAmount == spec.netBuyValue && netSellAmount == spec.netSellValue;
    } else {
      netBuyAmount := 0.0;
      netSellAmount := if avgSellPrice != 0.0 then Abs(netShares) as real * avgSellPrice / 10000.0 else 0.0;
      assert netBuyAmount == spec.netBuyValue && netSellAmount == spec.netSellValue;
    }
    var netBuyLots := if netShares > 0 then Lots(netShares) else 0.0;
    var netSellLots := if netShares < 0 then Lots(Abs(netShares)) else 0.0;
    assert netBuyLots == spec.netBuyLots && netSellLots == spec.netSellLots;
    assert totalBuyAmount / 10000.0 == spec.buyValue && totalSellAmount / 10000.0 == spec.sellValue;

    row := Aggregate(
      broker,
      Lots(totalBuyShares), avgBuyPrice, Lots(totalSellShares), avgSellPrice,
      Lots(dayTradeVolume), totalBuyAmount / 10000.0, totalSellAmount / 10000.0,
      netBuyLots, netSellLots, netBuyAmount, netSellAmount, dayTradePnl);
  }

  /**
   * `df2calculate`: the loop over the unique brokers that fills the result
   * table one broker at a time. The dictionary of the source is keyed by
   * brokers that are pairwise distinct, so its insertion order is the order
   * of the rows appended here.
   */
  method Calculate(rs: seq<Record>) returns (table: seq<Aggregate>)
    ensures |table| == |Brokers(rs)|
    ensures forall k :: 0 <= k < |table| ==> table[k] == Summary(Brokers(rs)[k], rs)
  {
    var brokers := Brokers(rs);
    table := [];
    var i := 0;
    while i < |brokers|
      invariant 0 <= i <= |brokers|
      invariant |table| == i
      invariant forall k :: 0 <= k < i ==> table[k] == Summary(brokers[k], rs)
    {
      var row := Summarize(brokers[i], rs);
      table := table + [row];
      i := i + 1;
    }
  }

  /** The records of one broker, in their original order. */
  function OfBroker(rs: seq<Record>, broker: string): seq<Record>
  {
    if rs == [] then []
    else (if rs[0].broker == broker then [rs[0]] else []) + OfBroker(rs[1..], broker)
  }

  lemma TotalsCons(x: Record, rest: seq<Record>, broker: string, side: Side)
    ensures TotalShares([x] + rest, broker, side) == SharesIn(x, broker, side) + TotalShares(rest, broker, side)
    ensures TotalAmount([x] + rest, broker, side) == AmountIn(x, broker, side) + TotalAmount(rest, broker, side)
  {
    assert ([x] + rest)[0] == x && ([x] + rest)[1..] == rest;
  }

  lemma {:induction false} TotalsAppend(a: seq<Record>, b: seq<Record>, broker: string, side: Side)
    ensures TotalShares(a + b, broker, side) == TotalShares(a, broker, side) + TotalShares(b, broker, side)
    ensures TotalAmount(a + b, broker, side) == TotalAmount(a, broker, side) + TotalAmount(b, broker, side)
  {
    if a == [] {
      assert a + b == b;
    } else {
      assert a + b == [a[0]] + (a[1..] + b);
      assert a == [a[0]] + a[1..];
      TotalsAppend(a[1..], b, broker, side);
      TotalsCons(a[0], a[1..] + b, broker, side);
      TotalsCons(a[0], a[1..], broker, side);
    }
  }

  /**
   * The side totals are sums, so they do not depend on the order of the
   * records: any permutation of the records gives the same totals.
   */
  lemma {:induction false} TotalsPermutation(rs: seq<Record>, rs': seq<Record>, broker: string, side: Side)
    requires multiset(rs) == multiset(rs')
    ensures TotalShares(rs, broker, side) == TotalShares(rs', broker, side)
    ensures TotalAmount(rs, broker, side) == TotalAmount(rs', broker, side)
    decreases |rs|
  {
    if rs == [] {
      assert |rs'| == |multiset(rs')| == 0;
    } else {
      var i := Match(rs, rs');
      TotalsPermutation(rs[1..], rs'[..i] + rs'[i + 1..], broker, side);
      TotalsPick(rs', i, broker, side);
    }
  }

  /** A sequence's totals are one of its records' contribution plus the totals of the others. */
  lemma TotalsPick(rs: seq<Record>, i: nat, broker: string, side: Side)
    requires i < |rs|
    ensures TotalShares(rs, broker, side) == SharesIn(rs[i], broker, side) + TotalShares(rs[..i] + rs[i + 1..], broker, side)
    ensures TotalAmount(rs, broker, side) == AmountIn(rs[i], broker, side) + TotalAmount(rs[..i] + rs[i + 1..], broker, side)
  {
    var pre, post := rs[..i], rs[i + 1..];
    assert rs == pre + ([rs[i]] + post);
    TotalsMove(pre, rs[i], post, broker, side);
    TotalsCons(rs[i], pre + post, broker, side);
  }

  /** Where the first record of `rs` sits in a permutation `rs'` of it, and what is left of both. */
  lemma Match(rs: seq<Record>, rs': seq<Record>) returns (i: nat)
    requires rs != [] && multiset(rs) == multiset(rs')
    ensures i < |rs'| && rs'[i] == rs[0]
    ensures multiset(rs[1..]) == multiset(rs'[..i] + rs'[i + 1..])
  {
    var x := rs[0];
    assert x in multiset(rs);
    assert x in rs';
    i :| 0 <= i < |rs'| && rs'[i] == x;
    assert rs == [x] + rs[1..];
    assert multiset(rs[1..]) == multiset(rs) - multiset{x};
    Remove(rs', i);
  }

  /** Taking one record out of a sequence takes one copy of it out of its multiset. */
  lemma Remove(rs: seq<Record>, i: nat)
    requires i < |rs|
    ensures multiset(rs[..i] + rs[i + 1..]) == multiset(rs) - multiset{rs[i]}
  {
    assert rs == rs[..i] + [rs[i]] + rs[i + 1..];
  }

  /** Moving one record to the front leaves the totals unchanged. */
  lemma TotalsMove(pre: seq<Record>, x: Record, post: seq<Record>, broker: string, side: Side)
    ensures TotalShares(pre + ([x] + post), broker, side) == TotalShares([x] + (pre + post), broker, side)
    ensures TotalAmount(pre + ([x] + post), broker, side) == TotalAmount([x] + (pre + post), broker, side)
  {
    TotalsAppend(pre, [x] + post, broker, side);
    TotalsCons(x, post, broker, side);
    TotalsAppend(pre, post, broker, side);
    TotalsCons(x, pre + post, broker, side);
  }

  /**
   * A broker's aggregate, and in particular its weighted average prices, is
   * unchanged when the records are reordered.
   */
  lemma SummaryPermutation(broker: string, rs: seq<Record>, rs': seq<Record>)
    requires multiset(rs) == multiset(rs')
    ensures Summary(broker, rs) == Summary(broker, rs')
  {
    TotalsPermutation(rs, rs', broker, Buy);
    TotalsPermutation(rs, rs', broker, Sell);
  }

  /** Only the broker's own records enter its totals. */
  lemma {:induction false} TotalsOfBroker(rs: seq<Record>, broker: string, side: Side)
    ensures TotalShares(rs, broker, side) == TotalShares(OfBroker(rs, broker), broker, side)
    ensures TotalAmount(rs, broker, side) == TotalAmount(OfBroker(rs, broker), broker, side)
  {
    if rs != [] {
      TotalsOfBroker(rs[1..], broker, side);
      var head := if rs[0].broker == broker then [rs[0]] else [];
      TotalsAppend(head, OfBroker(rs[1..], broker), broker, side);
    }
  }

  /**
   * Grouping is by exact broker string: a broker's aggregate depends on its
   * own records only, so every record of that broker, and no other record,
   * goes into it.
   */
  lemma SummaryOfOwnRecords(broker: string, rs: seq<Record>, rs': seq<Record>)
    requires OfBroker(rs, broker) == OfBroker(rs', broker)
    ensures Summary(broker, rs) == Summary(broker, rs')
  {
    TotalsOfBroker(rs, broker, Buy);
    TotalsOfBroker(rs, broker, Sell);
    TotalsOfBroker(rs', broker, Buy);
    TotalsOfBroker(rs', broker, Sell);
  }

  /** Every record traded on `side` by `broker` has a price in `[lo, hi]`. */
  predicate PricesWithin(rs: seq<Record>, broker: string, side: Side, lo: real, hi: real)
  {
    rs == [] || ((Traded(rs[0], broker, side) ==> lo <= rs[0].price <= hi) && PricesWithin(rs[1..], broker, side, lo, hi))
  }

  lemma {:induction false} PricesWithinAll(rs: seq<Record>, broker: string, side: Side, lo: real, hi: real)
    requires forall p :: 0 <= p < |rs| && Traded(rs[p], broker, side) ==> lo <= rs[p].price <= hi
    ensures PricesWithin(rs, broker, side, lo, hi)
  {
    if rs != [] {
      assert forall p :: 1 <= p < |rs| ==> rs[p] == rs[1..][p - 1];
      PricesWithinAll(rs[1..], broker, side, lo, hi);
    }
  }

  /** The traded amount lies between the extreme prices times the shares. */
  lemma {:induction false} AmountBetween(rs: seq<Record>, broker: string, side: Side, lo: real, hi: real)
    requires PricesWithin(rs, broker, side, lo, hi)
    ensures Within(lo, hi, TotalShares(rs, broker, side), TotalAmount(rs, broker, side))
  {
    if rs == [] {
      assert Within(lo, hi, 0, 0.0);
    } else {
      AmountBetween(rs[1..], broker, side, lo, hi);
      AmountBetweenStep(rs, broker, side, lo, hi);
    }
  }

  /** `lo * shares <= amount <= hi * shares`. */
  predicate Within(lo: real, hi: real, shares: int, amount: real)
  {
    lo * shares as real <= amount <= hi * shares as real
  }

  lemma AmountBetweenStep(rs: seq<Record>, broker: string, side: Side, lo: real, hi: real)
    requires rs != [] && PricesWithin(rs, broker, side, lo, hi)
    requires Within(lo, hi, TotalShares(rs[1..], broker, side), TotalAmount(rs[1..], broker, side))
    ensures Within(lo, hi, TotalShares(rs, broker, side), TotalAmount(rs, broker, side))
  {
    var a, b := SharesIn(rs[0], broker, side), AmountIn(rs[0], broker, side);
    var n, m := TotalShares(rs[1..], broker, side), TotalAmount(rs[1..], broker, side);
    assert TotalShares(rs, broker, side) == a + n && TotalAmount(rs, broker, side) == b + m;
    WithinOne(rs[0], broker, side, lo, hi);
    WithinAdd(lo, hi, a, b, n, m);
  }

  /** One record's contribution lies within the bounds of its price. */
  lemma WithinOne(r: Record, broker: string, side: Side, lo: real, hi: real)
    requires Traded(r, broker, side) ==> lo <= r.price <= hi
    ensures Within(lo, hi, SharesIn(r, broker, side), AmountIn(r, broker, side))
  {
    if Traded(r, broker, side) {
      var w := Volume(r, side) as real;
      MulMonotone(lo, r.price, w);
      MulMonotone(r.price, hi, w);
    }
  }

  /** Bounds add up. */
  lemma WithinAdd(lo: real, hi: real, n1: int, m1: real, n2: int, m2: real)
    requires Within(lo, hi, n1, m1) && Within(lo, hi, n2, m2)
    ensures Within(lo, hi, n1 + n2, m1 + m2)
  {
    Distribute(lo, (n1 + n2) as real, n1 as real, n2 as real);
    Distribute(hi, (n1 + n2) as real, n1 as real, n2 as real);
  }

  lemma MulMonotone(x: real, y: real, v: real)
    requires x <= y && v >= 0.0
    ensures x * v <= y * v
  {
  }

  lemma Distribute(x: real, t: real, a: real, b: real)
    requires t == a + b
    ensures x * t == x * a + x * b
    ensures a == 0.0 ==> x * a == 0.0
  {
  }

  /**
   * The weighted average price of a side lies between the lowest and the
   * highest price of the records traded on that side.
   */
  lemma AverageWithinPrices(rs: seq<Record>, broker: string, side: Side, lo: real, hi: real)
    requires TotalShares(rs, broker, side) > 0
    requires forall p :: 0 <= p < |rs| && Traded(rs[p], broker, side) ==> lo <= rs[p].price <= hi
    ensures lo <= AveragePrice(TotalAmount(rs, broker, side), TotalShares(rs, broker, side)) <= hi
  {
    PricesWithinAll(rs, broker, side, lo, hi);
    AmountBetween(rs, broker, side, lo, hi);
    DivideBounds(lo, hi, TotalShares(rs, broker, side), TotalAmount(rs, broker, side));
  }

  /** Dividing `lo * n <= amount <= hi * n` by a positive `n`. */
  lemma DivideBounds(lo: real, hi: real, n: int, amount: real)
    requires n > 0 && Within(lo, hi, n, amount)
    ensures lo <= AveragePrice(amount, n) <= hi
  {
    var r := n as real;
    DivMonotone(lo * r, amount, r);
    DivMonotone(amount, hi * r, r);
    Cancel(lo, r);
    Cancel(hi, r);
  }

  lemma DivMonotone(x: real, y: real, n: real)
    requires x <= y && n > 0.0
    ensures x / n <= y / n
  {
  }

  lemma Cancel(x: real, n: real)
    requires n > 0.0
    ensures x * n / n == x
  {
  }

  /**
   * When every price is positive, a broker with a non-zero net position has
   * exactly one non-zero net value, on the side of the position; a flat
   * broker has both net values zero.
   */
  lemma NetValueOnOneSide(broker: string, rs: seq<Record>)
    requires forall p :: 0 <= p < |rs| ==> rs[p].price > 0.0
    ensures var a := Summary(broker, rs);
            && (a.buyLots > a.sellLots ==> a.netBuyValue > 0.0 && a.netSellValue == 0.0)
            && (a.buyLots < a.sellLots ==> a.netSellValue > 0.0 && a.netBuyValue == 0.0)
            && (a.buyLots == a.sellLots ==> a.netBuyValue == 0.0 && a.netSellValue == 0.0)
  {
    SummaryColumns(broker, rs);
    var a := Summary(broker, rs);
    AveragePositive(rs, broker, Buy);
    AveragePositive(rs, broker, Sell);
    if a.buyLots > a.sellLots {
      assert a.netBuyLots > 0.0 && a.buyPrice > 0.0;
      MulPositive(a.netBuyLots, a.buyPrice);
    } else if a.buyLots < a.sellLots {
      assert a.netSellLots > 0.0 && a.sellPrice > 0.0;
      MulPositive(a.netSellLots, a.sellPrice);
    }
  }

  lemma MulPositive(x: real, y: real)
    requires x > 0.0 && y > 0.0
    ensures x * y / 10.0 > 0.0
  {
  }

  /** With positive prices, a side with shares has a positive amount. */
  lemma {:induction false} AmountPositive(rs: seq<Record>, broker: string, side: Side)
    requires forall p :: 0 <= p < |rs| ==> rs[p].price > 0.0
    ensures TotalAmount(rs, broker, side) >= 0.0
    ensures TotalShares(rs, broker, side) > 0 ==> TotalAmount(rs, broker, side) > 0.0
  {
    if rs != [] {
      assert forall p :: 1 <= p < |rs| ==> rs[p] == rs[1..][p - 1];
      AmountPositive(rs[1..], broker, side);
      if Traded(rs[0], broker, side) {
        MulMonotone(0.0, rs[0].price, Volume(rs[0], side) as real);
        assert AmountIn(rs[0], broker, side) > 0.0;
      }
    }
  }

  /** With positive prices, a side with shares has a positive average price. */
  lemma AveragePositive(rs: seq<Record>, broker: string, side: Side)
    requires forall p :: 0 <= p < |rs| ==> rs[p].price > 0.0
    ensures TotalShares(rs, broker, side) > 0 ==>
              AveragePrice(TotalAmount(rs, broker, side), TotalShares(rs, broker, side)) > 0.0
  {
    AmountPositive(rs, broker, side);
  }

  /**
   * A broker with no positive volume on either side still gets a row, and
   * every column of that row is zero.
   */
  lemma IdleBrokerIsZero(broker: string, rs: seq<Record>)
    requires forall p :: 0 <= p < |rs| ==> !Traded(rs[p], broker, Buy) && !Traded(rs[p], broker, Sell)
    ensures Summary(broker, rs) == Aggregate(broker, 0.0, 0.0, 0.0, 0.0, 0.0, 0.0, 0.0, 0.0, 0.0, 0.0, 0.0, 0.0)
  {
    TotalSharesZero(rs, broker, Buy);
    TotalSharesZero(rs, broker, Sell);
  }

  /**
   * Two buys and a sell: broker A buys 1 lot at 10 and sells half a lot at
   * 12, so it day-trades half a lot for a P&L of 0.1 (萬) and stays a net
   * buyer of half a lot worth 0.5 (萬); broker B buys 2 lots at 9.
   */
  lemma ExampleAggregates()
    ensures var rs := [Record("A", 10.0, 1000, 0), Record("A", 12.0, 0, 500), Record("B", 9.0, 2000, 0)];
            && Brokers(rs) == ["A", "B"]
            && Summary("A", rs) == Aggregate("A", 1.0, 10.0, 0.5, 12.0, 0.5, 1.0, 0.6, 0.5, 0.0, 0.5, 0.0, 0.1)
            && Summary("B", rs) == Aggregate("B", 2.0, 9.0, 0.0, 0.0, 0.0, 1.8, 0.0, 2.0, 0.0, 1.8, 0.0, 0.0)
  {
    var rs := [Record("A", 10.0, 1000, 0), Record("A", 12.0, 0, 500), Record("B", 9.0, 2000, 0)];
    assert rs[..2] == [Record("A", 10.0, 1000, 0), Record("A", 12.0, 0, 500)];
    assert rs[..2][..1] == [Record("A", 10.0, 1000, 0)];
    assert rs[..2][..1][..0] == [];
    assert Brokers(rs[..2][..1]) == ["A"];
    assert Brokers(rs[..2]) == ["A"];
    assert "B" !in ["A"];
    assert rs[1..] == [Record("A", 12.0, 0, 500), Record("B", 9.0, 2000, 0)];
    assert rs[1..][1..] == [Record("B", 9.0, 2000, 0)];
  }
}
