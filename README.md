# Trading dashboard: order-book depth and sliding price window

This project models the two pieces of logic in the trading dashboard's
components that are more than presentation, and proves their properties in
Dafny.

- **Order book** (`OrderBook` module, `order_book.dfy`). Twelve mock ask
  levels are priced upward from 50000 and twelve mock bid levels downward
  from 49990, in steps of 10. Each level's size is `Math.random() * 5 + 0.1`.
  One pass per side keeps a running accumulator and writes each row's
  cumulative `total`. `maxTotal` is the larger of the two grand totals, and
  each row's `depth` is `total / maxTotal * 100`. The panel shows the first
  bid's price as the "last traded price", or 0 when there are no bids. The
  accumulator pass is the imperative method `AccumulateTotals`, proved
  against the specification function `Totals`. The whole effect is the
  method `BuildBook`, proved equal to the specification function `BookOf`,
  and the lemmas state their properties about `BookOf`.
- **Price chart** (`PriceChart` module, `price_chart.dfy`). The class
  `PriceSeries` owns the window `data` and the three header figures
  (`currentPrice`, `priceChange`, `percentChange`). `Generate` backfills 96
  points. They are 900 s apart, start 24 hours before now, and walk from the
  symbol's seeding price in steps of `(Math.random() - 0.5) * 200`. `Tick`
  is the interval callback. It pushes a point one interval after the last,
  moved by `(Math.random() - 0.5) * 50`, then shifts off the oldest point and
  recomputes the figures against the new first point. The pure function
  `Advance` specifies one tick and `Replay` specifies many. The class
  invariant `Valid` says three things: the window holds 96 points, they are
  spaced exactly 900 s apart, and the figures describe the current window.

Each `Math.random()` call is a parameter that the caller supplies, in
[0, 1). `Date.now()` is the parameter `nowMs`, in milliseconds. Prices and
sizes are exact `real`s.

Three behaviours of the code are modelled exactly as written:
- Percent change has no guard against a zero first price. In that case the
  model returns `NotFinite`, which stands for JavaScript's Infinity or NaN.
  `ZeroInitialPrice` shows that generating "SOL-USD" with a first draw of 0
  reaches this case.
- The depth division has no guard against a zero `maxTotal`. `WithDepth`
  therefore requires `maxTotal > 0` whenever the side has rows (a `map` over
  an empty side never divides). `MockGrandTotalPositive` proves that the
  mock book always meets this requirement, because twelve sizes of at least
  0.1 sum to at least 1.2.
- Prices are not kept positive. The random walk is unbounded below (the
  "SOL-USD" walk starts at 100 with steps of up to -100), so the model
  claims no sign for prices.

## Model

| member | source | states |
|---|---|---|
| OrderBook.MockSize | src/components/components/OrderBook.tsx:39 | a mock size drawn from `Math.random()` lies in [0.1, 5.1) |
| OrderBook.MockAsks | src/components/components/OrderBook.tsx:37-42 | as many ask rows as draws, each with size at least 0.1, price at least 50000, total and depth 0; prices strictly increase |
| OrderBook.MockBids | src/components/components/OrderBook.tsx:44-49 | as many bid rows as draws, each with size at least 0.1, price at most 49990, total and depth 0; prices strictly decrease |
| OrderBook.BookRows | src/components/components/OrderBook.tsx:37-49 | each side has 12 rows; ask i is priced 50000 + 10 i and bid i is priced 49990 - 10 i; each size is draw * 5 + 0.1, so it is at least 0.1 |
| OrderBook.AsksAboveBids | src/components/components/OrderBook.tsx:37-49 | ask prices strictly increase, bid prices strictly decrease, and every ask price is above every bid price |
| OrderBook.PrefixSumsIncrease | src/components/components/OrderBook.tsx:52-62 | when every size is at least 0.1, a longer prefix sums to at least 0.1 per extra row more than a shorter one |
| OrderBook.PrefixSumStep | src/components/components/OrderBook.tsx:55 | extending a prefix by one element adds that element to its sum (the `+=` step) |
| OrderBook.Totals | src/components/components/OrderBook.tsx:52-62 | the totals pass keeps the row count and every row's price and size and sets depth 0; the first total is the first size, and each later total is the previous total plus the row's size |
| OrderBook.AccumulateTotals | src/components/components/OrderBook.tsx:52-62 | the accumulator pass returns `Totals(rows)`: row i keeps its price and size, its total is the sum of sizes of rows 0..i, its depth is 0; the final accumulator is the side's grand total |
| OrderBook.TotalsStrictlyIncrease | src/components/components/OrderBook.tsx:52-62 | with sizes of at least 0.1, row j's total exceeds row i's total by at least 0.1 (j - i) |
| OrderBook.TotalsWithinGrand | src/components/components/OrderBook.tsx:52-62 | every total is positive and at most the grand total; the last row's total equals the grand total |
| OrderBook.BookTotals | src/components/components/OrderBook.tsx:52-62 | in the filled book, row i's total on each side is the sum of that side's sizes of rows 0..i; the last row's total equals the side's grand total, which is positive |
| OrderBook.BookTotalsIncrease | src/components/components/OrderBook.tsx:52-62 | in the filled book, row j's total exceeds row i's total by at least 0.1 (j - i) on each side |
| OrderBook.MaxTotal | src/components/components/OrderBook.tsx:64 | `maxTotal` is at least each grand total and equals one of them |
| OrderBook.MockGrandTotalPositive | src/components/components/OrderBook.tsx:37-64 | a mock side's grand total is at least 1.2, so `maxTotal > 0` and the depth division is defined |
| OrderBook.Depth | src/components/components/OrderBook.tsx:68 | depth times `maxTotal` equals total times 100 |
| OrderBook.WithDepth | src/components/components/OrderBook.tsx:66-74 | defined for an empty side or a positive `maxTotal`; keeps the row count and every row's price, size and total; each depth times `maxTotal` equals that row's total times 100 |
| OrderBook.AggregationPreservesRows | src/components/components/OrderBook.tsx:54-74 | aggregation keeps the row count and every row's price and size; only total and depth change |
| OrderBook.DepthBounds | src/components/components/OrderBook.tsx:66-74 | for 0 <= total <= maxTotal, depth is in [0, 100], and it is exactly 100 when total equals maxTotal |
| OrderBook.DepthBelowFull | src/components/components/OrderBook.tsx:66-74 | a total below maxTotal has depth below 100 |
| OrderBook.DepthMonotone | src/components/components/OrderBook.tsx:66-74 | depth is monotone in total |
| OrderBook.SideDepths | src/components/components/OrderBook.tsx:64-74 | on a side whose grand total is at most maxTotal, depths lie in [0, 100] and never decrease down the side |
| OrderBook.BookDepthsBounded | src/components/components/OrderBook.tsx:64-74 | in the filled book, every depth is in [0, 100] and depths never decrease down either side |
| OrderBook.LargerSideReachesFullDepth | src/components/components/OrderBook.tsx:64-74 | a side's last depth is exactly 100 if and only if its grand total is the larger one (or the two are equal) |
| OrderBook.BookOf | src/components/components/OrderBook.tsx:35-77 | the filled book has 12 rows per side, and each row keeps the price and size of the mock row it came from |
| OrderBook.BuildBook | src/components/components/OrderBook.tsx:35-80 | the effect's result equals `BookOf`: mock rows, two accumulator passes, `maxTotal`, then depths |
| OrderBook.LastTradedPrice | src/components/components/OrderBook.tsx:159 | 0 with no bids, otherwise the first bid's price; on bids whose prices strictly decrease, it is at least every bid price |
| OrderBook.LastTradedIsBestBid | src/components/components/OrderBook.tsx:159 | the last traded price is 0 with no bids; in the filled book it is 49990, the highest bid price, and below every ask price |
| PriceChart.BasePrice | src/components/components/PriceChart.tsx:86-88 | the seeding price is 3000 exactly for "ETH-USD", 100 exactly for "SOL-USD", and 50000 exactly for every other symbol |
| PriceChart.InitialChange | src/components/components/PriceChart.tsx:93 | a backfill step lies in [-100, 100) |
| PriceChart.TickChange | src/components/components/PriceChart.tsx:125 | a tick step lies in [-25, 25) |
| PriceChart.StartTime | src/components/components/PriceChart.tsx:82 | the start time plus 24 hours is `nowMs / 1000` rounded down (the floor relation, for any sign of `nowMs`) |
| PriceChart.PercentChange | src/components/components/PriceChart.tsx:106 | the percent change is not finite exactly when the initial price is 0; otherwise it times the initial price equals 100 times the change |
| PriceChart.PercentChangeSign | src/components/components/PriceChart.tsx:177-184 | over a positive initial price, the percent change is non-negative (the badge's "+" case) exactly when the price change is |
| PriceChart.StatsOf | src/components/components/PriceChart.tsx:103-106 | the current price is the window's last price; current price minus the change is the first price; the percent change is not finite exactly when the first price is 0, and otherwise it times the first price equals 100 times the change |
| PriceChart.ZeroInitialPrice | src/components/components/PriceChart.tsx:86-106 | generating "SOL-USD" with a first draw of 0 leaves a non-finite percent change |
| PriceChart.SpacedTimes | src/components/components/PriceChart.tsx:97 | in a spaced window, point i's time is the first time plus 900 i |
| PriceChart.SpacedIncreasing | src/components/components/PriceChart.tsx:97 | in a spaced window, timestamps strictly increase, and points j and i differ by 900 (j - i) |
| PriceChart.Advance | src/components/components/PriceChart.tsx:121-130 | one tick keeps the window length; the new window is the old one without its first point, followed by a point one interval after the old last and within 25 of its price |
| PriceChart.AdvanceKeepsSpacing | src/components/components/PriceChart.tsx:121-130 | a tick keeps consecutive timestamps exactly 900 apart |
| PriceChart.Replay | src/components/components/PriceChart.tsx:120-139 | after n ticks the window keeps its length, and while n is at most that length its first points are the old window without its n oldest points |
| PriceChart.ReplayKeepsWindow | src/components/components/PriceChart.tsx:120-139 | after any number n of ticks, the window has its old length and spacing, and its first timestamp has moved by 900 n |
| PriceChart.TickStats | src/components/components/PriceChart.tsx:135-138 | after a tick, the figures run from the old second point to the new point; the percent change is not finite exactly when the old second price is 0 |
| PriceChart.PriceSeries.constructor | src/components/components/PriceChart.tsx:22-24 | before generation the window is empty and all three figures are 0 |
| PriceChart.PriceSeries.Generate | src/components/components/PriceChart.tsx:81-113 | the window has 96 points; point i is at startTime + 900 i; the first price is the seed plus a step and each later price is the previous one plus a step; the figures describe the window |
| PriceChart.PriceSeries.Tick | src/components/components/PriceChart.tsx:120-139 | the window becomes `Advance` of the old one and stays valid; the new point is one interval after the old last and moved by the tick step; current price and price change are measured from the old second point |

## Left out

- Rendering: JSX, Tailwind classes, and the card, table, tabs and badge components. They are presentational only.
- The `grouping` tab state (OrderBook.tsx lines 32 and 100-103). It is set but never affects the data.
- The `spread` and `precision` props, `formatNumber` and `toLocaleString`. These are locale-dependent display formatting in the runtime library.
- The charting library calls (`createChart`, `addSeries`, `setData`, `update`, `fitContent`, `applyOptions`, `remove`). This is foreign code whose behaviour is not visible. `Tick` returns the point the source hands to `update`.
- `setInterval`, `clearInterval`, the 5000 ms cadence and the `resize` listener. This is timer and event plumbing; `Tick` is invoked explicitly.
- React hooks and setters (`useState`, `useEffect`, `useRef`). Their results are return values (`BuildBook`) or fields (`PriceSeries`). A re-run of the chart effect on a symbol change is a fresh call of `Generate`.
- `Math.random()` and `Date.now()`. They are nondeterministic, so they become parameters: draws in [0, 1) and `nowMs`.
- IEEE-754 rounding of JavaScript numbers. Every quantity is an exact `real` or `int`. A NaN in `bids[0]?.price || 0` cannot arise over reals.
- OrderBook.WithDepth: requires `maxTotal > 0` on a non-empty side, where the source has no guard. With a zero `maxTotal` JavaScript would give NaN depths. The mock book never reaches that case (see `MockGrandTotalPositive`).
- src/app/page.tsx, src/components/components/ClientTradingView.tsx and the trade route page. These are routing and component composition only.
