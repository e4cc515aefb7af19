# Gold price dashboard — a Dafny model of its sampling core

The repository is a Taro/React mini-program that shows mock gold prices.
Under the markup sit three small pieces of sequential logic, and this
project models them and proves what they guarantee:

- **The index page's state machine** (`src/pages/index/index.tsx`, and its
  earlier copy `backup/src/pages/index/index.tsx`). The component holds
  `goldPrices`, `loading`, `lastUpdated`, `priceTrend` and `priceHistory`.
  A fetch is two steps. `fetchGoldPrices` sets `loading` and schedules a
  callback. The callback replaces the snapshot, trend and timestamp, clears
  `loading`, and appends one `(time, au9999 price)` sample to the history,
  keeping the last ten (`[...prev, sample].slice(-10)`). Each page is a class
  (`IndexPage.Index`, `BackupIndexPage.Index`) with `BeginFetch` and
  `CompleteFetch` methods. The updater they share is the pure function
  `History.Push`.
- **The chart projection** (`backup/src/components/GoldPriceChart.tsx`). It
  turns the history into x-axis labels and series values. A label is the
  first two `:`-separated parts of the time. The chart draws only for more
  than one point. The module also has the tooltip formatter.
- **The mock price provider** (`backup/src/utils/gold-price-service.ts`).
  It builds a four-instrument snapshot: the three domestic grades from one
  base price with fixed offsets, the international price from a separate
  draw; a trend with its sign glyph, and a seven-day history.

Modules: `Nullable` (the `null`-until-fetched fields), `Quotes` (the
records exchanged), `History`, `Text` (JavaScript's `split` on one
character), `GoldPriceChart`, `PriceService`, `IndexPage`, `BackupIndexPage`.

Prices are integers in hundredths. The provider formats prices with
`toFixed(2)` and the page reads them back with `parseFloat`, so that pair
becomes the identity. On the non-negative amounts the provider formats,
`toFixed(2)` is `PriceService.Round2`: rounding half up on exact reals. Each `Math.random()` draw is a `real`
parameter in [0, 1). The clock strings (`toLocaleString`,
`toLocaleTimeString`), today's day number and the month-day formatter are
parameters too.

The code has no guard against overlapping fetches. The refresh button and
the 5-second interval both call `fetchGoldPrices` unconditionally. It has no
failure path that skips the append: a malformed price would be appended as
`NaN`. It also does not enforce increasing timestamps. The model follows the
code on all three points. `BeginFetch` has no precondition on `loading`, and
`IndexPage.OverlappingRefreshes` shows two pending fetches both appending.
`CompleteFetch` always appends. `History.PushKeepsOrder` is stated under the
caller's premise that samples arrive in order.

## Model

| member | source | states |
|---|---|---|
| `History.LastN` | src/pages/index/index.tsx:59 | `slice(-n)` for n > 0 keeps min(length, n) elements: all of a shorter sequence, otherwise exactly its last n, in order |
| `History.Push` | src/pages/index/index.tsx:56-60 | new length is min(old + 1, 10); the result is a suffix of the old history, in order, followed by the new sample |
| `History.PushEviction` | src/pages/index/index.tsx:57-59 | the new sample is last; below ten nothing is evicted and the old history is a prefix; at ten exactly the oldest is dropped; length never exceeds 10 |
| `History.PushKeepsOrder` | backup/src/pages/index/index.tsx:52-53 | if the history is ordered and the new sample follows its last one, the updated history is ordered |
| `History.AppendAllSnoc` | backup/src/pages/index/index.tsx:51-54 | one more completed fetch after a run of them is one more application of the updater |
| `History.AppendAllIsLastN` | backup/src/pages/index/index.tsx:51-54 | any run of completed fetches leaves the last ten of all samples seen, in append order |
| `History.AppendAllFromEmpty` | backup/src/pages/index/index.tsx:51-54 | from an empty history, N fetches leave min(N, 10) samples, the last ones appended |
| `History.ChartShownAfterPush` | src/pages/index/index.tsx:138 | after a completed fetch the chart is shown exactly when the history already held a sample |
| `History.Map` | backup/src/components/GoldPriceChart.tsx:47 | `map` keeps the length and applies the projection to each element, keeping it at the same position |
| `History.MapPush` | backup/src/components/GoldPriceChart.tsx:47-50 | projecting then pushing equals pushing then projecting |
| `Text.IndexOf` | backup/src/components/GoldPriceChart.tsx:48 | the position of the first separator, or the length when there is none |
| `Text.Split` | backup/src/components/GoldPriceChart.tsx:48 | `split` always gives at least one part, even for the empty string |
| `Text.SplitParts` | backup/src/components/GoldPriceChart.tsx:48 | no part of a split holds the separator |
| `Text.JoinSplit` | backup/src/components/GoldPriceChart.tsx:48 | joining the parts of a split with the separator gives the string back |
| `Text.SplitJoin` | backup/src/components/GoldPriceChart.tsx:48 | splitting a join of separator-free parts gives the parts back |
| `GoldPriceChart.AxisLabel` | backup/src/components/GoldPriceChart.tsx:48-49 | the label is a prefix of the time; a time without `:` is unchanged |
| `GoldPriceChart.SplitLabel` | backup/src/components/GoldPriceChart.tsx:48-49 | a time with a colon splits into at least two parts, and the first two joined by `:` are the time up to the second colon or the end; a time without one splits into one part |
| `GoldPriceChart.AxisLabelEnd` | backup/src/components/GoldPriceChart.tsx:48-49 | the label is the time cut just before its second colon, or the whole time when there is no second colon |
| `GoldPriceChart.AxisLabelShape` | backup/src/components/GoldPriceChart.tsx:48-49 | the label keeps the first colon of the time, holds no second one, and stops at the end of the time or just before a colon |
| `GoldPriceChart.ClockLabel` | backup/src/components/GoldPriceChart.tsx:48-49 | for colon-free hour and minute fields, `hour:minute` followed by nothing or by `:seconds…` is labelled `hour:minute` |
| `GoldPriceChart.AxisLabelIdempotent` | backup/src/components/GoldPriceChart.tsx:48-49 | labelling a label gives the same label |
| `GoldPriceChart.AxisLabelExamples` | backup/src/components/GoldPriceChart.tsx:48-49 | "14:23:05" gives "14:23", "14:23" gives "14:23", "noon" gives "noon" |
| `GoldPriceChart.XAxis` | backup/src/components/GoldPriceChart.tsx:47-50 | one label per sample, same length, same order |
| `GoldPriceChart.SeriesData` | backup/src/components/GoldPriceChart.tsx:78 | the values are the prices unchanged, same length, same order |
| `GoldPriceChart.ProjectionAfterPush` | backup/src/components/GoldPriceChart.tsx:47-78 | after a fetch the axis and series are the old ones pushed with the new sample's label and price |
| `GoldPriceChart.ChartOptionFor` | backup/src/components/GoldPriceChart.tsx:27-108 | an option is set exactly when there are more than one point; labels and values line up with the samples |
| `GoldPriceChart.Renders` | backup/src/components/GoldPriceChart.tsx:117-119 | the component draws exactly when its canvas hook is ready and the data got a chart option |
| `GoldPriceChart.RendersOnlyWithOption` | backup/src/components/GoldPriceChart.tsx:117-119 | the component draws only when an option was set, and never for one point or none |
| `GoldPriceChart.Tooltip` | backup/src/components/GoldPriceChart.tsx:32-37 | empty exactly when there is no first entry; otherwise it starts with that entry's name |
| `GoldPriceChart.TooltipRoundTrip` | backup/src/components/GoldPriceChart.tsx:32-37 | when the first entry's name holds no `<`, its name and value can be read back from the tooltip; later entries are ignored |
| `PriceService.Round2` | backup/src/utils/gold-price-service.ts:34 | for the non-negative amounts the provider formats, `toFixed(2)` gives the nearest hundredth, halves up |
| `PriceService.Round2Shift` | backup/src/utils/gold-price-service.ts:30-44 | adding whole yuan to a non-negative amount before rounding adds the same amount after it, so the offsets survive rounding |
| `PriceService.CurrentPrices` | backup/src/utils/gold-price-service.ts:29-53 | all four instruments; au9999 = au100 + 5.00 and au999 = au100 + 2.00, so au9999 > au999 > au100; au100 in [480.00, 500.00], international in [62.50, 64.50]; fixed names and units |
| `PriceService.PriceTrend` | backup/src/utils/gold-price-service.ts:75-83 | up exactly when the draw exceeds one half; "+" exactly for up and "-" exactly for down; change in [0.00, 2.00] |
| `PriceService.HistoricalPrice` | backup/src/utils/gold-price-service.ts:65 | for the week's base (at least 480.00, line 58) and a draw in [0, 1), the day's price lies strictly within 2.505 of the week's base: at most 2.50 of noise plus half a hundredth of rounding |
| `PriceService.HistoricalPrices` | backup/src/utils/gold-price-service.ts:56-72 | seven dates and seven prices, oldest day first; each price is the base plus its own noise draw, within [477.50, 492.50] |
| `IndexPage.Index.constructor` | src/pages/index/index.tsx:33-37 | no prices, no trend, no timestamp, loading on, empty history |
| `IndexPage.Index.BeginFetch` | src/pages/index/index.tsx:41 | loading is set and no other field changes |
| `IndexPage.Index.CompleteFetch` | src/pages/index/index.tsx:44-60 | prices, trend and timestamp replaced, loading cleared, history updated by `Push` with the au9999 price; afterwards the chart area (src/pages/index/index.tsx:138) replaces the placeholder exactly when the history held a sample before this fetch |
| `IndexPage.OverlappingRefreshes` | src/pages/index/index.tsx:78-80 | two fetches started before either completes both append, and the chart area shows |
| `IndexPage.TwelveFetches` | src/pages/index/index.tsx:56-60 | twelve fetches at 480.00 … 491.00 leave 482.00 … 491.00 |
| `IndexPage.LastTenOfTwelve` | src/pages/index/index.tsx:56-60 | the same run stated on the samples: the first two are evicted |
| `BackupIndexPage.Index.constructor` | backup/src/pages/index/index.tsx:32-36 | no prices, no trend, no timestamp, loading on, empty history |
| `BackupIndexPage.Index.BeginFetch` | backup/src/pages/index/index.tsx:39 | loading is set and no other field changes |
| `BackupIndexPage.Index.CompleteFetch` | backup/src/pages/index/index.tsx:40-55 | prices, trend and timestamp replaced, loading cleared, history updated by `Push` with the au9999 price; afterwards the page's chart gate (backup/src/pages/index/index.tsx:121) holds exactly when the history held a sample before this fetch |
| `BackupIndexPage.Index.ChartData` | backup/src/pages/index/index.tsx:121-128 | what the page hands to the chart component is charted with the whole history's own axis labels and prices; when the page keeps the placeholder, the component would set no option for that history either |
| `BackupIndexPage.ChartGatesAgree` | backup/src/pages/index/index.tsx:121-128 | a history the page hands to the chart always gets an option and is drawn once the canvas is ready; a history the page keeps back would get no option and draw nothing |
| `BackupIndexPage.TwoPointOption` | backup/src/components/GoldPriceChart.tsx:47-78 | a two-point history gets an option whose labels are the two axis labels and whose values are the two prices |
| `BackupIndexPage.FirstChart` | backup/src/pages/index/index.tsx:121-128 | after one fetch the placeholder shows; after two the chart gets both labels and both au9999 prices |

## Left out

- Rendering: the JSX layout, CSS classes and the Chinese UI strings of the pages. The instrument names and units that the provider returns are modelled.
- Scheduling: `setTimeout`, `setInterval`/`clearInterval` and the `useEffect` lifecycle. A fetch is the explicit pair `BeginFetch`/`CompleteFetch`, so any interleaving of fetches can be written as a sequence of calls.
- The `try/catch` in `src/pages/index/index.tsx`. It only wraps the scheduling of the callback, and nothing it wraps can throw, so it adds no behaviour.
- Floating point: binary rounding of `toFixed`, `NaN` from `parseFloat`, and the y-axis `toFixed(0)` formatter. Prices are exact hundredths.
- Locale and clock: `Date`, `toLocaleString` and `toLocaleTimeString` are string parameters. In `getHistoricalPrices` the calendar is a day number plus a formatting function, so a run that crosses midnight between iterations is not modelled.
- The chart's `useRef`/`useState` plumbing, `echarts.init`, `setOption`, `EcCanvas` and the colour and grid styling. The `ec` state is a boolean parameter of `GoldPriceChart.Renders`.
- The chart's `!data` check. The page always passes a defined array.
- Number-to-text conversion in the tooltip. The value arrives as its text.
- `backup/src/services/gold-price-api.ts` is not part of this model. It is an asynchronous placeholder client that returns constants and ignores its arguments.
- `backup/src/types/echarts-for-weixin.d.ts` is not part of this model. It is a type declaration only.
