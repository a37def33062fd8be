/**
 * The normaliser of the broker trade report (`df2clean`).
 *
 * A raw report row carries two broker observations side by side: columns 1-4
 * (broker, price, buy shares, sell shares) and columns 7-10 (the same four
 * fields). The normaliser stacks every left-block row above every right-block
 * row, coerces the numeric fields and drops each record whose broker or price
 * is missing.
 */
module Normalizer {
  import opened Wrappers

  /**
   * One cell of the raw table as pandas sees it. `Blank` is the None that
   * pandas puts in the cells a short CSV row does not reach; `Text` is a cell
   * the CSV reader produced, together with what `pd.to_numeric` makes of it
   * (`asNumber`, None when the text is not numeric) and what the volume
   * coercion makes of it (`asShares`, None when the text is not numeric).
   */
  datatype Cell = Blank | Text(text: string, asNumber: Option<real>, asShares: Option<int>)

  /** A raw report: the header's column count and the data rows. */
  datatype Table = Table(width: nat, rows: seq<seq<Cell>>)

  /** The four cells of one block of one row: broker, price, buy, sell. */
  datatype Quad = Quad(broker: Cell, price: Cell, buy: Cell, sell: Cell)

  /** A normalised trade record (券商, 價格, 買進股數, 賣出股數). */
  datatype Record = Record(broker: string, price: real, buyShares: int, sellShares: int)

  const LeftOffset: nat := 1
  const RightOffset: nat := 7
  /** `iloc[:, [7, 8, 9, 10]]` needs at least eleven columns. */
  const MinWidth: nat := 11

  /** The cell in column `i`; pandas pads a short row with None. */
  function CellAt(row: seq<Cell>, i: nat): Cell
  {
    if i < |row| then row[i] else Blank
  }

  function QuadAt(row: seq<Cell>, offset: nat): Quad
  {
    Quad(CellAt(row, offset), CellAt(row, offset + 1), CellAt(row, offset + 2), CellAt(row, offset + 3))
  }

  /** The four-column block starting at `offset`, one quad per row, in row order. */
  function Block(rows: seq<seq<Cell>>, offset: nat): (b: seq<Quad>)
    ensures |b| == |rows|
  {
    seq(|rows|, i requires 0 <= i < |rows| => QuadAt(rows[i], offset))
  }

  /** `pd.to_numeric(..., errors="coerce")` on the price column: NaN becomes None. */
  function PriceOf(c: Cell): Option<real>
  {
    match c
    case Blank => None
    case Text(_, p, _) => p
  }

  /** `pd.to_numeric(..., errors="coerce").fillna(0).astype(int)` on a volume column. */
  function SharesOf(c: Cell): int
  {
    match c
    case Blank => 0
    case Text(_, _, Some(n)) => n
    case Text(_, _, None) => 0
  }

  /**
   * The record one quad becomes, or None when `dropna` removes it: the broker
   * cell is missing or the price did not parse. Volumes never cause a drop.
   */
  function Coerce(q: Quad): (r: Option<Record>)
    ensures r.None? <==> q.broker.Blank? || PriceOf(q.price).None?
    ensures r.Some? ==> r.value == Record(q.broker.text, PriceOf(q.price).value, SharesOf(q.buy), SharesOf(q.sell))
  {
    match (q.broker, PriceOf(q.price))
    case (Text(name, _, _), Some(p)) => Some(Record(name, p, SharesOf(q.buy), SharesOf(q.sell)))
    case _ => None
  }

  /** The record a quad leaves after `dropna()`: one or none. */
  function Kept(q: Quad): seq<Record>
  {
    if Coerce(q).Some? then [Coerce(q).value] else []
  }

  /** `dropna()`: the records of the quads that survive coercion, in order. */
  function Retain(qs: seq<Quad>): seq<Record>
  {
    if qs == [] then [] else Kept(qs[0]) + Retain(qs[1..])
  }

  /**
   * `df2clean`. None stands for the IndexError that `iloc` raises on a table
   * narrower than eleven columns.
   */
  function Clean(t: Table): (r: Option<seq<Record>>)
    ensures r.None? <==> t.width < MinWidth
    ensures r.Some? ==> |r.value| <= 2 * |t.rows|
  {
    if t.width < MinWidth then None
    else
      var quads := Block(t.rows, LeftOffset) + Block(t.rows, RightOffset);
      RetainShorter(quads);
      Some(Retain(quads))
  }

  /**
   * The positions, counted from `base`, of the quads that survive coercion,
   * in increasing order.
   */
  ghost function Survivors(qs: seq<Quad>, base: nat): seq<nat>
  {
    if qs == [] then []
    else (if Coerce(qs[0]).Some? then [base] else []) + Survivors(qs[1..], base + 1)
  }

  lemma {:induction false} RetainShorter(qs: seq<Quad>)
    ensures |Retain(qs)| <= |qs|
  {
    if qs != [] {
      RetainShorter(qs[1..]);
    }
  }

  /** Dropping distributes over concatenation, so block order is kept. */
  lemma {:induction false} RetainAppend(a: seq<Quad>, b: seq<Quad>)
    ensures Retain(a + b) == Retain(a) + Retain(b)
  {
    if a == [] {
      assert a + b == b;
    } else {
      assert (a + b)[1..] == a[1..] + b;
      RetainAppend(a[1..], b);
    }
  }

  /**
   * `Retain` keeps exactly the quads that coerce: its k-th record is the
   * coercion of the quad at the k-th surviving position.
   */
  lemma {:induction false} RetainIsFilter(qs: seq<Quad>, base: nat)
    ensures |Retain(qs)| == |Survivors(qs, base)|
    ensures forall k :: 0 <= k < |Survivors(qs, base)| ==>
              base <= Survivors(qs, base)[k] < base + |qs|
              && Coerce(qs[Survivors(qs, base)[k] - base]) == Some(Retain(qs)[k])
  {
    if qs != [] {
      var tail := qs[1..];
      RetainIsFilter(tail, base + 1);
      var s, st := Survivors(qs, base), Survivors(tail, base + 1);
      var rs, rt := Retain(qs), Retain(tail);
      var d := |Kept(qs[0])|;
      assert s == (if Coerce(qs[0]).Some? then [base] else []) + st;
      assert rs == Kept(qs[0]) + rt;
      assert |rs| == |s|;
      forall k | d <= k < |s|
        ensures base <= s[k] < base + |qs| && Coerce(qs[s[k] - base]) == Some(rs[k])
      {
        assert s[k] == st[k - d] && rs[k] == rt[k - d];
        assert qs[s[k] - base] == tail[st[k - d] - (base + 1)];
      }
    }
  }

  /** The surviving positions are strictly increasing, so order is kept. */
  lemma {:induction false} SurvivorsIncrease(qs: seq<Quad>, base: nat)
    ensures forall k :: 0 <= k < |Survivors(qs, base)| ==> base <= Survivors(qs, base)[k]
    ensures forall k, l :: 0 <= k < l < |Survivors(qs, base)| ==> Survivors(qs, base)[k] < Survivors(qs, base)[l]
  {
    if qs != [] {
      SurvivorsIncrease(qs[1..], base + 1);
    }
  }

  /** A position survives exactly when its quad coerces. */
  lemma {:induction false} SurvivorsComplete(qs: seq<Quad>, base: nat)
    ensures forall i :: 0 <= i < |qs| ==> (Coerce(qs[i]).Some? <==> base + i in Survivors(qs, base))
  {
    if qs != [] {
      var tail := qs[1..];
      SurvivorsComplete(tail, base + 1);
      SurvivorsIncrease(tail, base + 1);
      assert Survivors(qs, base) == (if Coerce(qs[0]).Some? then [base] else []) + Survivors(tail, base + 1);
      forall i | 0 < i < |qs|
        ensures Coerce(qs[i]).Some? <==> base + i in Survivors(qs, base)
      {
        assert qs[i] == tail[i - 1];
      }
    }
  }

  /**
   * The normalised table is the surviving left-block records in row order
   * followed by the surviving right-block records in row order.
   */
  lemma CleanOrder(t: Table)
    requires t.width >= MinWidth
    ensures Clean(t) == Some(Retain(Block(t.rows, LeftOffset)) + Retain(Block(t.rows, RightOffset)))
  {
    RetainAppend(Block(t.rows, LeftOffset), Block(t.rows, RightOffset));
  }

  /**
   * Every quad of either block whose broker and price are present reaches the
   * output, with its unparsable volumes set to 0. `CleanComesFromBlocks` is
   * the converse.
   */
  lemma CleanKeepsExactly(t: Table, i: nat, offset: nat)
    requires t.width >= MinWidth && i < |t.rows|
    requires offset == LeftOffset || offset == RightOffset
    ensures var q := QuadAt(t.rows[i], offset);
            !q.broker.Blank? && PriceOf(q.price).Some? ==>
              Record(q.broker.text, PriceOf(q.price).value, SharesOf(q.buy), SharesOf(q.sell)) in Clean(t).value
  {
    var left, right := Block(t.rows, LeftOffset), Block(t.rows, RightOffset);
    var quads := left + right;
    var j := if offset == LeftOffset then i else |t.rows| + i;
    assert quads[j] == QuadAt(t.rows[i], offset);
    RetainIsFilter(quads, 0);
    SurvivorsComplete(quads, 0);
    if Coerce(quads[j]).Some? {
      var k :| 0 <= k < |Survivors(quads, 0)| && Survivors(quads, 0)[k] == j;
      assert Retain(quads)[k] == Coerce(quads[j]).value;
    }
  }

  /** Every output record is the coercion of some quad of one of the two blocks. */
  lemma CleanComesFromBlocks(t: Table, r: Record)
    requires t.width >= MinWidth && r in Clean(t).value
    ensures exists i, offset :: 0 <= i < |t.rows| && (offset == LeftOffset || offset == RightOffset)
                                && Coerce(QuadAt(t.rows[i], offset)) == Some(r)
  {
    var left, right := Block(t.rows, LeftOffset), Block(t.rows, RightOffset);
    var quads := left + right;
    RetainIsFilter(quads, 0);
    var k :| 0 <= k < |Retain(quads)| && Retain(quads)[k] == r;
    var j := Survivors(quads, 0)[k];
    if j < |t.rows| {
      assert quads[j] == QuadAt(t.rows[j], LeftOffset);
    } else {
      assert quads[j] == QuadAt(t.rows[j - |t.rows|], RightOffset);
    }
  }
}
