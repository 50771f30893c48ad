/**
  The price-chart panel of the trading view: a backfilled random-walk price
  series of 96 points fifteen minutes apart, continued by a periodic tick
  that appends one point and evicts the oldest, together with the three
  figures shown in the header (current price, absolute and percent change
  over the window).

  Prices are exact reals. Each call of `Math.random()` is a caller-supplied
  draw in [0, 1); `Date.now()` is the parameter `nowMs`.
*/
module PriceChart {

  /** Number of points in the window. */
  const WindowSize: nat := 96
  /** Seconds between consecutive points (15 minutes). */
  const Interval: int := 15 * 60
  /** How far back the backfilled history starts, in seconds (24 hours). */
  const Lookback: int := 24 * 60 * 60

  /** One sample of the series: a UTC timestamp in seconds and a price. */
  datatype Point = Point(time: int, value: real)

  /**
    The result of a JavaScript division `x / y * 100`: a finite number, or
    a non-finite one (Infinity or NaN) when `y` is 0.
  */
  datatype Percent = Finite(value: real) | NotFinite

  /** A value `Math.random()` can return. */
  predicate IsDraw(r: real) {
    0.0 <= r < 1.0
  }

  predicate AllDraws(rs: seq<real>) {
    forall i :: 0 <= i < |rs| ==> IsDraw(rs[i])
  }

  /** The seeding price for a symbol. */
  function BasePrice(symbol: string): (p: real)
    ensures p == 3000.0 <==> symbol == "ETH-USD"
    ensures p == 100.0 <==> symbol == "SOL-USD"
    ensures p == 50000.0 <==> symbol != "ETH-USD" && symbol != "SOL-USD"
  {
    var p := 50000.0;
    var p := if symbol == "ETH-USD" then 3000.0 else p;
    if symbol == "SOL-USD" then 100.0 else p
  }

  /** The step of the backfilled walk: `(Math.random() - 0.5) * 200`. */
  function InitialChange(r: real): (d: real)
    requires IsDraw(r)
    ensures -100.0 <= d < 100.0
  {
    (r - 0.5) * 200.0
  }

  /** The step of a live tick: `(Math.random() - 0.5) * 50`. */
  function TickChange(r: real): (d: real)
    requires IsDraw(r)
    ensures -25.0 <= d < 25.0
  {
    (r - 0.5) * 50.0
  }

  /** The first timestamp of the backfill: 24 hours before `Math.floor(Date.now() / 1000)`. */
  function StartTime(nowMs: int): (t: int)
    ensures (t + Lookback) * 1000 <= nowMs < (t + Lookback + 1) * 1000
  {
    nowMs / 1000 - Lookback
  }

  // ---------------------------------------------------------------------
  // Statistics

  /** `change / initial * 100`, with no guard against a zero `initial`. */
  function PercentChange(change: real, initial: real): (pc: Percent)
    ensures pc.NotFinite? <==> initial == 0.0
    ensures pc.Finite? ==> pc.value * initial == change * 100.0
  {
    if initial == 0.0 then NotFinite else Finite(change / initial * 100.0)
  }

  /** Over a positive initial price, percent change has the sign of the absolute change. */
  lemma PercentChangeSign(change: real, initial: real)
    requires initial > 0.0
    ensures PercentChange(change, initial).Finite?
    ensures PercentChange(change, initial).value >= 0.0 <==> change >= 0.0
  {
  }

  // ---------------------------------------------------------------------
  // The window

  /** Consecutive timestamps are exactly one interval apart. */
  predicate Spaced(w: seq<Point>) {
    forall i :: 0 < i < |w| ==> w[i].time == w[i - 1].time + Interval
  }

  lemma {:induction false} SpacedTimes(w: seq<Point>, i: nat)
    requires Spaced(w) && i < |w|
    ensures w[i].time == w[0].time + Interval * i
  {
    if i > 0 {
      SpacedTimes(w, i - 1);
    }
  }

  /** In a spaced window, timestamps strictly increase. */
  lemma SpacedIncreasing(w: seq<Point>, i: nat, j: nat)
    requires Spaced(w) && i < j < |w|
    ensures w[j].time - w[i].time == Interval * (j - i)
    ensures w[i].time < w[j].time
  {
    SpacedTimes(w, i);
    SpacedTimes(w, j);
  }

  /** One tick on a window: push the point one interval after the last, then shift off the oldest. */
  function Advance(w: seq<Point>, r: real): (w': seq<Point>)
    requires |w| > 0 && IsDraw(r)
    ensures |w'| == |w|
    ensures w'[..|w| - 1] == w[1..]
    ensures w'[|w| - 1].time == w[|w| - 1].time + Interval
    ensures w[|w| - 1].value - 25.0 <= w'[|w| - 1].value < w[|w| - 1].value + 25.0
  {
    var last := w[|w| - 1];
    (w + [Point(last.time + Interval, last.value + TickChange(r))])[1..]
  }

  /** A tick keeps consecutive timestamps one interval apart. */
  lemma AdvanceKeepsSpacing(w: seq<Point>, r: real)
    requires |w| > 0 && IsDraw(r) && Spaced(w)
    ensures Spaced(Advance(w, r))
  {
  }

  /** The window after one tick per draw, in order. */
  function Replay(w: seq<Point>, draws: seq<real>): (w': seq<Point>)
    requires |w| > 0 && AllDraws(draws)
    ensures |w'| == |w|
    ensures |draws| <= |w| ==> w'[..|w| - |draws|] == w[|draws|..]
    decreases |draws|
  {
    if draws == [] then w else Replay(Advance(w, draws[0]), draws[1..])
  }

  /** Any number of ticks keeps the window length and its spacing, and moves its first timestamp one interval per tick. */
  lemma {:induction false} ReplayKeepsWindow(w: seq<Point>, draws: seq<real>)
    requires |w| > 0 && AllDraws(draws) && Spaced(w)
    ensures |Replay(w, draws)| == |w|
    ensures Spaced(Replay(w, draws))
    ensures Replay(w, draws)[0].time == w[0].time + Interval * |draws|
    decreases |draws|
  {
    if draws != [] {
      var w1 := Advance(w, draws[0]);
      AdvanceKeepsSpacing(w, draws[0]);
      SpacedTimes(w, |w| - 1);
      if |w| > 1 {
        assert w1[0] == w[1];
      }
      ReplayKeepsWindow(w1, draws[1..]);
    }
  }

  /** The three header figures, computed against the first and last points of the window. */
  datatype Stats = Stats(currentPrice: real, priceChange: real, percentChange: Percent)

  function StatsOf(w: seq<Point>): (s: Stats)
    requires |w| > 0
    ensures s.currentPrice == w[|w| - 1].value
    ensures s.currentPrice - s.priceChange == w[0].value
    ensures s.percentChange.NotFinite? <==> w[0].value == 0.0
    ensures s.percentChange.Finite? ==> s.percentChange.value * w[0].value == s.priceChange * 100.0
  {
    var initialPrice := w[0].value;
    var currentPrice := w[|w| - 1].value;
    Stats(currentPrice, currentPrice - initialPrice, PercentChange(currentPrice - initialPrice, initialPrice))
  }

  /**
    After a tick the statistics are measured from the old second point
    (the new first one) to the new point.
  */
  lemma TickStats(w: seq<Point>, r: real)
    requires |w| > 1 && IsDraw(r)
    ensures var s := StatsOf(Advance(w, r));
      && s.currentPrice == w[|w| - 1].value + TickChange(r)
      && s.priceChange == w[|w| - 1].value + TickChange(r) - w[1].value
      && (s.percentChange.NotFinite? <==> w[1].value == 0.0)
  {
  }

  // ---------------------------------------------------------------------
  // The component state

  /**
    The chart's state: the window the interval callback mutates, and the
    three React state values shown in the header.

    Lifecycle: the constructor gives the state before the first render (no
    window yet, so `Valid()` does not hold); `Generate` fills the window and
    establishes `Valid()`; every `Tick` then requires and keeps it. Calling
    `Generate` again (the effect re-running for a new symbol) replaces the
    window.
  */
  class PriceSeries {
    var data: seq<Point>
    var currentPrice: real
    var priceChange: real
    var percentChange: Percent

    /**
      Holds once the series has been generated: a full window, spaced one
      interval apart, whose statistics the three figures show.
    */
    ghost predicate Valid()
      reads this
    {
      && |data| == WindowSize
      && Spaced(data)
      && Stats(currentPrice, priceChange, percentChange) == StatsOf(data)
    }

    /** Before the first render: no data, every figure 0 (`useState(0)`). */
    constructor ()
      ensures data == []
      ensures currentPrice == 0.0 && priceChange == 0.0 && percentChange == Finite(0.0)
    {
      data := [];
      currentPrice, priceChange, percentChange := 0.0, 0.0, Finite(0.0);
    }

    /**
      `generateMockData`: 96 points from 24 hours before `nowMs`, each the
      previous price (the symbol's seeding price for the first) plus a
      step in [-100, 100), then the header figures.
    */
    method Generate(symbol: string, nowMs: int, draws: seq<real>)
      requires |draws| == WindowSize && AllDraws(draws)
      modifies this
      ensures Valid()
      ensures forall i :: 0 <= i < WindowSize ==> data[i].time == StartTime(nowMs) + Interval * i
      ensures data[0].value == BasePrice(symbol) + InitialChange(draws[0])
      ensures forall i :: 0 < i < WindowSize ==> data[i].value == data[i - 1].value + InitialChange(draws[i])
    {
      var startTime := StartTime(nowMs);
      var points: seq<Point> := [];
      var basePrice := BasePrice(symbol);
      for i := 0 to WindowSize
        invariant |points| == i
        invariant forall k :: 0 <= k < i ==> points[k].time == startTime + Interval * k
        invariant i > 0 ==> points[0].value == BasePrice(symbol) + InitialChange(draws[0])
        invariant forall k :: 0 < k < i ==> points[k].value == points[k - 1].value + InitialChange(draws[k])
        invariant basePrice == if i == 0 then BasePrice(symbol) else points[i - 1].value
      {
        var randomChange := InitialChange(draws[i]);
        basePrice := basePrice + randomChange;
        points := points + [Point(startTime + i * Interval, basePrice)];
      }
      data := points;
      var initialPrice := data[0].value;
      currentPrice := data[|data| - 1].value;
      priceChange := currentPrice - initialPrice;
      percentChange := PercentChange(priceChange, initialPrice);
    }

    /**
      The interval callback: the new point lies one interval after the last
      with its price moved by a step in [-25, 25); it is pushed, the oldest
      point is shifted off, and the figures are recomputed against the new
      first point. Returns the point handed to the chart.
    */
    method Tick(draw: real) returns (newPoint: Point)
      requires Valid() && IsDraw(draw)
      modifies this
      ensures Valid()
      ensures data == Advance(old(data), draw)
      ensures newPoint == data[WindowSize - 1]
      ensures newPoint.time == old(data)[WindowSize - 1].time + Interval
      ensures newPoint.value == old(data)[WindowSize - 1].value + TickChange(draw)
      ensures currentPrice == newPoint.value
      ensures priceChange == newPoint.value - old(data)[1].value
    {
      AdvanceKeepsSpacing(data, draw);
      var lastPoint := data[|data| - 1];
      var newTime := lastPoint.time + Interval;
      var randomChange := TickChange(draw);
      var newValue := lastPoint.value + randomChange;
      newPoint := Point(newTime, newValue);
      data := data + [newPoint];
      data := data[1..];
      var initialPrice := data[0].value;
      currentPrice := newValue;
      priceChange := newValue - initialPrice;
      percentChange := PercentChange(newValue - initialPrice, initialPrice);
    }
  }

  /**
    With the seeding price of "SOL-USD" (100) and a first draw of 0, the
    first point of the backfill is exactly 0, so the percent change shown
    after generation is not a finite number.
  */
  method ZeroInitialPrice(nowMs: int, draws: seq<real>) returns (pc: Percent)
    requires |draws| == WindowSize && AllDraws(draws) && draws[0] == 0.0
    ensures pc == NotFinite
  {
    var series := new PriceSeries();
    series.Generate("SOL-USD", nowMs, draws);
    pc := series.percentChange;
  }
}
