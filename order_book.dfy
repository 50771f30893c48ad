/**
  The order-book panel of the trading view: two synthetic sides of twelve
  price levels each, a running cumulative size per level, and a depth
  percentage relative to the larger of the two sides' grand totals.

  Prices and sizes are exact reals. Each call of `Math.random()` is a
  caller-supplied draw in [0, 1).
*/
module OrderBook {

  /** Number of mock levels generated on each side. */
  const BookDepth: nat := 12
  /** Price of the lowest ask. */
  const AskStart: real := 50000.0
  /** Price of the highest bid. */
  const BidStart: real := 49990.0
  /** Price distance between neighbouring levels. */
  const Tick: real := 10.0
  /** Smallest size a mock level can have. */
  const MinSize: real := 0.1

  /** One level of the book. */
  datatype Order = Order(price: real, size: real, total: real, depth: real)

  /** Both sides of the book as the panel displays them. */
  datatype Book = Book(asks: seq<Order>, bids: seq<Order>)

  /** A value `Math.random()` can return. */
  predicate IsDraw(r: real) {
    0.0 <= r < 1.0
  }

  predicate AllDraws(rs: seq<real>) {
    forall i :: 0 <= i < |rs| ==> IsDraw(rs[i])
  }

  // ---------------------------------------------------------------------
  // Mock rows

  /** The size of a mock level drawn from `r`: `Math.random() * 5 + 0.1`. */
  function MockSize(r: real): (s: real)
    requires IsDraw(r)
    ensures MinSize <= s < 5.0 + MinSize
  {
    r * 5.0 + MinSize
  }

  /** Ask level i is priced 50000 + 10 i; total and depth start at 0. */
  function MockAsks(draws: seq<real>): (rows: seq<Order>)
    requires AllDraws(draws)
    ensures |rows| == |draws| && SizesAtLeastMin(rows)
    ensures forall i, j :: 0 <= i < j < |rows| ==> rows[i].price < rows[j].price
    ensures forall i :: 0 <= i < |rows| ==> AskStart <= rows[i].price && rows[i].total == rows[i].depth == 0.0
  {
    seq(|draws|, i requires 0 <= i < |draws| =>
      Order(AskStart + (i as real) * Tick, MockSize(draws[i]), 0.0, 0.0))
  }

  /** Bid level i is priced 49990 - 10 i; total and depth start at 0. */
  function MockBids(draws: seq<real>): (rows: seq<Order>)
    requires AllDraws(draws)
    ensures |rows| == |draws| && SizesAtLeastMin(rows)
    ensures forall i, j :: 0 <= i < j < |rows| ==> rows[i].price > rows[j].price
    ensures forall i :: 0 <= i < |rows| ==> rows[i].price <= BidStart && rows[i].total == rows[i].depth == 0.0
  {
    seq(|draws|, i requires 0 <= i < |draws| =>
      Order(BidStart - (i as real) * Tick, MockSize(draws[i]), 0.0, 0.0))
  }

  // ---------------------------------------------------------------------
  // Sums of sizes

  /** The sizes of the rows, in order. */
  function Sizes(rows: seq<Order>): (s: seq<real>)
    ensures |s| == |rows|
  {
    seq(|rows|, i requires 0 <= i < |rows| => rows[i].size)
  }

  /** The sum of a sequence, added from the front as the source's accumulator does. */
  function Sum(xs: seq<real>): real {
    if xs == [] then 0.0 else Sum(xs[..|xs| - 1]) + xs[|xs| - 1]
  }

  /** The grand total of a side: the sum of all its sizes. */
  function GrandTotal(rows: seq<Order>): real {
    Sum(Sizes(rows))
  }

  /** Every row of the side has at least the minimum mock size. */
  predicate SizesAtLeastMin(rows: seq<Order>) {
    forall i :: 0 <= i < |rows| ==> rows[i].size >= MinSize
  }

  lemma {:induction false} PrefixSumsIncrease(xs: seq<real>, i: nat, j: nat)
    requires forall k :: 0 <= k < |xs| ==> xs[k] >= MinSize
    requires i < j <= |xs|
    ensures Sum(xs[..i]) + MinSize * ((j - i) as real) <= Sum(xs[..j])
  {
    assert xs[..j][..j - 1] == xs[..j - 1];
    if i < j - 1 {
      PrefixSumsIncrease(xs, i, j - 1);
    } else {
      assert i == j - 1;
    }
  }

  /** Adding one more element to a prefix adds that element to its sum. */
  lemma PrefixSumStep(xs: seq<real>)
    ensures forall i :: 0 <= i < |xs| ==> Sum(xs[..i + 1]) == Sum(xs[..i]) + xs[i]
  {
    forall i | 0 <= i < |xs|
      ensures Sum(xs[..i + 1]) == Sum(xs[..i]) + xs[i]
    {
      assert xs[..i + 1][..i] == xs[..i];
    }
  }

  // ---------------------------------------------------------------------
  // Cumulative totals

  /** Specification of the totals pass: row i's total is the sum of the sizes of rows 0..i, depth is reset to 0. */
  function Totals(rows: seq<Order>): (r: seq<Order>)
    ensures |r| == |rows|
    ensures forall i :: 0 <= i < |rows| ==>
      r[i].price == rows[i].price && r[i].size == rows[i].size && r[i].depth == 0.0
    ensures |rows| > 0 ==> r[0].total == rows[0].size
    ensures forall i :: 0 < i < |rows| ==> r[i].total == r[i - 1].total + rows[i].size
  {
    PrefixSumStep(Sizes(rows));
    assert Sizes(rows)[..0] == [];
    seq(|rows|, i requires 0 <= i < |rows| =>
      rows[i].(total := Sum(Sizes(rows)[..i + 1]), depth := 0.0))
  }

  /**
    The `map` over one side with the mutable accumulator (`askTotal` or
    `bidTotal`): returns the processed rows and the final accumulator.
  */
  method AccumulateTotals(rows: seq<Order>) returns (processed: seq<Order>, grand: real)
    ensures processed == Totals(rows)
    ensures grand == GrandTotal(rows)
  {
    ghost var sizes := Sizes(rows);
    var acc := 0.0;
    processed := [];
    var i := 0;
    while i < |rows|
      invariant 0 <= i <= |rows|
      invariant acc == Sum(sizes[..i])
      invariant |processed| == i
      invariant forall k :: 0 <= k < i ==> processed[k] == rows[k].(total := Sum(sizes[..k + 1]), depth := 0.0)
    {
      assert sizes[..i + 1][..i] == sizes[..i];
      acc := acc + rows[i].size;
      processed := processed + [rows[i].(total := acc, depth := 0.0)];
      i := i + 1;
    }
    assert sizes[..|rows|] == sizes;
    grand := acc;
  }

  // ---------------------------------------------------------------------
  // Depth normalisation

  /** `Math.max` of the two grand totals. */
  function MaxTotal(askTotal: real, bidTotal: real): (m: real)
    ensures m >= askTotal && m >= bidTotal
    ensures m == askTotal || m == bidTotal
  {
    if askTotal >= bidTotal then askTotal else bidTotal
  }

  /** The depth of a row: its total as a percentage of `maxTotal`. */
  function Depth(total: real, maxTotal: real): (d: real)
    requires maxTotal > 0.0
    ensures d * maxTotal == total * 100.0
  {
    total / maxTotal * 100.0
  }

  /**
    Rewrites only the depth of every row. The source has no guard against a
    zero `maxTotal`; it divides only when the side has a row.
  */
  function WithDepth(rows: seq<Order>, maxTotal: real): (r: seq<Order>)
    requires rows == [] || maxTotal > 0.0
    ensures |r| == |rows|
    ensures forall i :: 0 <= i < |rows| ==>
      r[i].price == rows[i].price && r[i].size == rows[i].size && r[i].total == rows[i].total
    ensures forall i :: 0 <= i < |rows| ==> r[i].depth * maxTotal == rows[i].total * 100.0
  {
    seq(|rows|, i requires 0 <= i < |rows| => rows[i].(depth := Depth(rows[i].total, maxTotal)))
  }

  lemma DepthBounds(total: real, maxTotal: real)
    requires maxTotal > 0.0 && 0.0 <= total <= maxTotal
    ensures 0.0 <= Depth(total, maxTotal) <= 100.0
    ensures total == maxTotal ==> Depth(total, maxTotal) == 100.0
  {
  }

  lemma DepthMonotone(t1: real, t2: real, maxTotal: real)
    requires maxTotal > 0.0 && t1 <= t2
    ensures Depth(t1, maxTotal) <= Depth(t2, maxTotal)
  {
  }

  // ---------------------------------------------------------------------
  // The whole computation

  /** Twelve draws per side, each a value of `Math.random()`. */
  predicate ValidDraws(askDraws: seq<real>, bidDraws: seq<real>) {
    |askDraws| == BookDepth && |bidDraws| == BookDepth && AllDraws(askDraws) && AllDraws(bidDraws)
  }

  /** Mock sides always have a positive grand total, so the depth division is defined. */
  lemma MockGrandTotalPositive(draws: seq<real>, bid: bool)
    requires AllDraws(draws) && |draws| == BookDepth
    ensures GrandTotal(if bid then MockBids(draws) else MockAsks(draws)) >= MinSize * (BookDepth as real)
  {
    var rows := if bid then MockBids(draws) else MockAsks(draws);
    var sizes := Sizes(rows);
    assert sizes[..0] == [] && sizes[..BookDepth] == sizes;
    PrefixSumsIncrease(sizes, 0, BookDepth);
  }

  /** Specification of the effect that fills the book. */
  function BookOf(askDraws: seq<real>, bidDraws: seq<real>): (book: Book)
    requires ValidDraws(askDraws, bidDraws)
    ensures |book.asks| == BookDepth && |book.bids| == BookDepth
    ensures forall i :: 0 <= i < BookDepth ==>
      && book.asks[i].price == MockAsks(askDraws)[i].price && book.asks[i].size == MockAsks(askDraws)[i].size
      && book.bids[i].price == MockBids(bidDraws)[i].price && book.bids[i].size == MockBids(bidDraws)[i].size
  {
    var asks := MockAsks(askDraws);
    var bids := MockBids(bidDraws);
    MockGrandTotalPositive(askDraws, false);
    var maxTotal := MaxTotal(GrandTotal(asks), GrandTotal(bids));
    Book(WithDepth(Totals(asks), maxTotal), WithDepth(Totals(bids), maxTotal))
  }

  /** The effect itself: mock rows, the two accumulator passes, `maxTotal`, then depths. */
  method BuildBook(askDraws: seq<real>, bidDraws: seq<real>) returns (book: Book)
    requires ValidDraws(askDraws, bidDraws)
    ensures book == BookOf(askDraws, bidDraws)
  {
    var mockAsks := MockAsks(askDraws);
    var mockBids := MockBids(bidDraws);
    var processedAsks, askTotal := AccumulateTotals(mockAsks);
    var processedBids, bidTotal := AccumulateTotals(mockBids);
    MockGrandTotalPositive(askDraws, false);
    var maxTotal := MaxTotal(askTotal, bidTotal);
    book := Book(WithDepth(processedAsks, maxTotal), WithDepth(processedBids, maxTotal));
  }

  /** The "last traded price" line: `bids[0]?.price || 0`. */
  function LastTradedPrice(bids: seq<Order>): (p: real)
    ensures |bids| == 0 ==> p == 0.0
    ensures |bids| > 0 ==> p == bids[0].price
    ensures (forall i, j :: 0 <= i < j < |bids| ==> bids[i].price > bids[j].price) ==>
      forall j :: 0 <= j < |bids| ==> bids[j].price <= p
  {
    if |bids| > 0 then bids[0].price else 0.0
  }

  // ---------------------------------------------------------------------
  // Properties of one side

  /** Totals strictly increase along a side whose sizes are at least the minimum. */
  lemma TotalsStrictlyIncrease(rows: seq<Order>, i: nat, j: nat)
    requires SizesAtLeastMin(rows) && i < j < |rows|
    ensures Totals(rows)[i].total + MinSize * ((j - i) as real) <= Totals(rows)[j].total
  {
    PrefixSumsIncrease(Sizes(rows), i + 1, j + 1);
  }

  /** Every total is positive and at most the side's grand total, which the last row reaches. */
  lemma TotalsWithinGrand(rows: seq<Order>, i: nat)
    requires SizesAtLeastMin(rows) && i < |rows|
    ensures 0.0 < Totals(rows)[i].total <= GrandTotal(rows)
    ensures i == |rows| - 1 ==> Totals(rows)[i].total == GrandTotal(rows)
  {
    var sizes := Sizes(rows);
    assert sizes[..|rows|] == sizes;
    assert sizes[..0] == [];
    PrefixSumsIncrease(sizes, 0, i + 1);
    if i + 1 < |rows| {
      PrefixSumsIncrease(sizes, i + 1, |rows|);
    }
  }

  /** Depths lie in [0, 100] and never decrease along a side. */
  lemma SideDepths(rows: seq<Order>, maxTotal: real, i: nat, j: nat)
    requires SizesAtLeastMin(rows) && maxTotal > 0.0 && GrandTotal(rows) <= maxTotal
    requires i <= j < |rows|
    ensures 0.0 <= WithDepth(Totals(rows), maxTotal)[i].depth
    ensures WithDepth(Totals(rows), maxTotal)[i].depth <= WithDepth(Totals(rows), maxTotal)[j].depth
    ensures WithDepth(Totals(rows), maxTotal)[j].depth <= 100.0
  {
    var t := Totals(rows);
    TotalsWithinGrand(rows, i);
    TotalsWithinGrand(rows, j);
    DepthBounds(t[i].total, maxTotal);
    DepthBounds(t[j].total, maxTotal);
    if i < j {
      TotalsStrictlyIncrease(rows, i, j);
    }
    DepthMonotone(t[i].total, t[j].total, maxTotal);
  }

  // ---------------------------------------------------------------------
  // Properties of the filled book

  /** Both sides have twelve rows whose prices follow the mock ladders and whose sizes are the drawn ones. */
  lemma BookRows(askDraws: seq<real>, bidDraws: seq<real>)
    requires ValidDraws(askDraws, bidDraws)
    ensures var book := BookOf(askDraws, bidDraws);
      && |book.asks| == BookDepth && |book.bids| == BookDepth
      && (forall i :: 0 <= i < BookDepth ==>
            book.asks[i].price == AskStart + 10.0 * (i as real)
            && book.asks[i].size == askDraws[i] * 5.0 + 0.1
            && book.asks[i].size >= MinSize)
      && (forall i :: 0 <= i < BookDepth ==>
            book.bids[i].price == BidStart - 10.0 * (i as real)
            && book.bids[i].size == bidDraws[i] * 5.0 + 0.1
            && book.bids[i].size >= MinSize)
  {
  }

  /** Aggregation rewrites only total and depth: row count, prices and sizes are those of the mock rows. */
  lemma AggregationPreservesRows(rows: seq<Order>, maxTotal: real)
    requires maxTotal > 0.0
    ensures var out := WithDepth(Totals(rows), maxTotal);
      && |out| == |rows|
      && Sizes(out) == Sizes(rows)
      && forall i :: 0 <= i < |rows| ==> out[i].price == rows[i].price && out[i].size == rows[i].size
  {
  }

  /** Each side's row i carries the sum of that side's sizes of rows 0..i; the last row carries the grand total, which is positive. */
  lemma BookTotals(askDraws: seq<real>, bidDraws: seq<real>)
    requires ValidDraws(askDraws, bidDraws)
    ensures var book := BookOf(askDraws, bidDraws);
      && (forall i :: 0 <= i < BookDepth ==> book.asks[i].total == Sum(Sizes(book.asks)[..i + 1]))
      && (forall i :: 0 <= i < BookDepth ==> book.bids[i].total == Sum(Sizes(book.bids)[..i + 1]))
      && book.asks[BookDepth - 1].total == GrandTotal(book.asks) > 0.0
      && book.bids[BookDepth - 1].total == GrandTotal(book.bids) > 0.0
  {
    var book := BookOf(askDraws, bidDraws);
    var asks, bids := MockAsks(askDraws), MockBids(bidDraws);
    MockGrandTotalPositive(askDraws, false);
    MockGrandTotalPositive(bidDraws, true);
    var maxTotal := MaxTotal(GrandTotal(asks), GrandTotal(bids));
    AggregationPreservesRows(asks, maxTotal);
    AggregationPreservesRows(bids, maxTotal);
    TotalsWithinGrand(asks, BookDepth - 1);
    TotalsWithinGrand(bids, BookDepth - 1);
  }

  /** Totals strictly increase down each side, by at least 0.1 per row. */
  lemma BookTotalsIncrease(askDraws: seq<real>, bidDraws: seq<real>)
    requires ValidDraws(askDraws, bidDraws)
    ensures var book := BookOf(askDraws, bidDraws);
      forall i, j :: 0 <= i < j < BookDepth ==>
        && book.asks[i].total + MinSize * ((j - i) as real) <= book.asks[j].total
        && book.bids[i].total + MinSize * ((j - i) as real) <= book.bids[j].total
  {
    var asks, bids := MockAsks(askDraws), MockBids(bidDraws);
    forall i: nat, j: nat | i < j < BookDepth
      ensures Totals(asks)[i].total + MinSize * ((j - i) as real) <= Totals(asks)[j].total
      ensures Totals(bids)[i].total + MinSize * ((j - i) as real) <= Totals(bids)[j].total
    {
      TotalsStrictlyIncrease(asks, i, j);
      TotalsStrictlyIncrease(bids, i, j);
    }
  }

  /** Every depth lies in [0, 100] and depths never decrease down either side. */
  lemma BookDepthsBounded(askDraws: seq<real>, bidDraws: seq<real>)
    requires ValidDraws(askDraws, bidDraws)
    ensures var book := BookOf(askDraws, bidDraws);
      && (forall i :: 0 <= i < BookDepth ==>
            0.0 <= book.asks[i].depth <= 100.0 && 0.0 <= book.bids[i].depth <= 100.0)
      && (forall i, j :: 0 <= i <= j < BookDepth ==>
            book.asks[i].depth <= book.asks[j].depth && book.bids[i].depth <= book.bids[j].depth)
  {
    var asks, bids := MockAsks(askDraws), MockBids(bidDraws);
    MockGrandTotalPositive(askDraws, false);
    var maxTotal := MaxTotal(GrandTotal(asks), GrandTotal(bids));
    forall i: nat, j: nat | i <= j < BookDepth
      ensures 0.0 <= WithDepth(Totals(asks), maxTotal)[i].depth <= WithDepth(Totals(asks), maxTotal)[j].depth <= 100.0
      ensures 0.0 <= WithDepth(Totals(bids), maxTotal)[i].depth <= WithDepth(Totals(bids), maxTotal)[j].depth <= 100.0
    {
      SideDepths(asks, maxTotal, i, j);
      SideDepths(bids, maxTotal, i, j);
    }
  }

  /** The side with the larger grand total ends at depth exactly 100; a strictly smaller side ends below 100. */
  lemma LargerSideReachesFullDepth(askDraws: seq<real>, bidDraws: seq<real>)
    requires ValidDraws(askDraws, bidDraws)
    ensures var book := BookOf(askDraws, bidDraws);
      && (book.asks[BookDepth - 1].depth == 100.0 <==> GrandTotal(book.asks) >= GrandTotal(book.bids))
      && (book.bids[BookDepth - 1].depth == 100.0 <==> GrandTotal(book.bids) >= GrandTotal(book.asks))
  {
    var asks, bids := MockAsks(askDraws), MockBids(bidDraws);
    MockGrandTotalPositive(askDraws, false);
    MockGrandTotalPositive(bidDraws, true);
    var maxTotal := MaxTotal(GrandTotal(asks), GrandTotal(bids));
    AggregationPreservesRows(asks, maxTotal);
    AggregationPreservesRows(bids, maxTotal);
    TotalsWithinGrand(asks, BookDepth - 1);
    TotalsWithinGrand(bids, BookDepth - 1);
    DepthBounds(GrandTotal(asks), maxTotal);
    DepthBounds(GrandTotal(bids), maxTotal);
    if GrandTotal(asks) < maxTotal {
      DepthBelowFull(GrandTotal(asks), maxTotal);
    }
    if GrandTotal(bids) < maxTotal {
      DepthBelowFull(GrandTotal(bids), maxTotal);
    }
  }

  lemma DepthBelowFull(total: real, maxTotal: real)
    requires maxTotal > 0.0 && total < maxTotal
    ensures Depth(total, maxTotal) < 100.0
  {
  }

  /** Asks ascend and bids descend in price, and every ask is priced above every bid. */
  lemma AsksAboveBids(askDraws: seq<real>, bidDraws: seq<real>)
    requires ValidDraws(askDraws, bidDraws)
    ensures var book := BookOf(askDraws, bidDraws);
      && (forall i, j :: 0 <= i < j < BookDepth ==>
            book.asks[i].price < book.asks[j].price && book.bids[i].price > book.bids[j].price)
      && (forall i, j :: 0 <= i < BookDepth && 0 <= j < BookDepth ==> book.bids[j].price < book.asks[i].price)
  {
  }

  /** The displayed last traded price is the best (highest) bid, below every ask; with no bids it is 0. */
  lemma LastTradedIsBestBid(askDraws: seq<real>, bidDraws: seq<real>)
    requires ValidDraws(askDraws, bidDraws)
    ensures LastTradedPrice([]) == 0.0
    ensures var book := BookOf(askDraws, bidDraws);
      && LastTradedPrice(book.bids) == BidStart
      && (forall j :: 0 <= j < BookDepth ==> book.bids[j].price <= LastTradedPrice(book.bids) < book.asks[j].price)
  {
  }
}
