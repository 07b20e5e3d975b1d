# EMS Anytime sensor dashboard: data pipeline model

A Dafny model of the logic under a browser dashboard that polls a ThingSpeak
channel every fifteen seconds and shows four environmental metrics
(temperature, humidity, air quality, smoke):

- **Feed normalisation** (`thingspeak.dfy`, module `ThingSpeak`): each raw feed
  entry (`created_at`, `field1..field4`, all text) becomes a `SensorData`
  reading. The fields are parsed leniently: `parseFloat(x) || 0`. The module
  also models `getLatestReading` and the strict `> 400` smoke threshold.
  `parseFloat` and `new Date(text)` are passed in as the functions `parse` and
  `toDate`, where `parse` answers `None` for NaN.
- **Chart statistics** (`sensor_charts.dfy`, module `SensorCharts`): the rows
  handed to the chart library, and the memoised `stats` block. That block holds
  the latest reading, the full-series mean of each metric and a padded integer
  axis domain `[floor(min - pad), ceil(max + pad)]`. The pads are 1, 2, 5 and 5.
  Numbers are exact reals.
- **Polling hook** (`use_sensor_data.dfy`, module `SensorDataHook`): the four
  state cells `data`, `loading`, `error` and `lastUpdate`, plus the interval
  handle. They live in the class `SensorDataHook`. Its methods are tied to pure
  transition functions (`Begin`, `Settle`, `Fetch`, `Step`), and event traces
  are folded by `Run`. The awaited network result arrives as a `FetchOutcome`.
- **Viewport classification** (`use_viewport.dfy`, module `ViewportHook`): the
  stored window size (class `Viewport`) and the flags derived from it
  (`Classify`).
- `types.dfy` (module `SensorTypes`) holds the record shapes: `ThingSpeakFeed`,
  `ThingSpeakResponse`, `SensorData`, plus `Option` and `Date`.

Two behaviours of the code are worth spelling out:

- `loading` becomes true at the start of every fetch, not only before the first
  load. The dashboard hides its spinner once data exists, but that is a
  rendering decision.
- After a failure, `error` holds the thrown `Error`'s own message. That message
  may be empty, so the model does not promise a non-empty error text.

## Model

| member | source | states |
|---|---|---|
| ThingSpeak.OrZero | src/lib/thingspeak.ts:22-25 | a field that fails to parse (NaN) gives exactly 0; a field that parses to v gives v |
| ThingSpeak.Normalize | src/lib/thingspeak.ts:20-26 | one reading per feed entry, same count and order; reading i takes its timestamp from entry i's `created_at` and field1..field4 as temperature, humidity, air quality, smoke |
| ThingSpeak.NormalizeFeed | src/lib/thingspeak.ts:20-26 | the `map` callback: timestamp from `created_at`, field1..field4 through the or-zero default (OrZero) to temperature, humidity, air quality, smoke (its properties are stated on Normalize) |
| ThingSpeak.TransformResponse | src/lib/thingspeak.ts:17-26 | the decoded response body yields one reading per entry of its `feeds` array, reading i being entry i normalised |
| ThingSpeak.NormalizeFieldDefaults | src/lib/thingspeak.ts:22-25 | for every entry and every field: parse failure gives 0 in the reading, a parsed number is kept unchanged |
| ThingSpeak.NormalizeAppend | src/lib/thingspeak.ts:20-26 | normalisation is a map: normalising a concatenation is concatenating the normalised parts |
| ThingSpeak.GetLatestReading | src/lib/thingspeak.ts:33-36 | null exactly when the list is empty; otherwise the element at index length - 1 |
| ThingSpeak.LatestOfNormalized | src/lib/thingspeak.ts:20-36 | the latest reading of a normalised feed is absent iff the feed is empty, and is otherwise the normalised last entry |
| ThingSpeak.LatestAfterAppend | src/lib/thingspeak.ts:33-35 | a reading appended to any series becomes the latest reading |
| ThingSpeak.IsSmokeDetected | src/lib/thingspeak.ts:52-54 | smoke is detected when the level is strictly above 400 (its boundary and monotonicity are SmokeBoundary and SmokeMonotone) |
| ThingSpeak.SmokeBoundary | src/lib/thingspeak.ts:52-54 | smoke detection is false at exactly 400 and at or below it, true for every level above 400 |
| ThingSpeak.SmokeMonotone | src/lib/thingspeak.ts:52-54 | if smoke is detected at level a and a <= b, it is detected at b |
| ThingSpeak.SingleFeedScenario | src/lib/thingspeak.ts:20-26 | the entry "72.5", "45", "120", "10" gives one reading 72.5 / 45 / 120 / 10 and no smoke alarm |
| SensorCharts.ChartData | src/components/sensor-charts.tsx:44-55 | one chart row per reading, same length and order, the four metric values copied unchanged and the row's time taken from the reading's timestamp |
| SensorCharts.Value | src/components/sensor-charts.tsx:63-73 | selects one metric's value from a reading, the field each `reduce` and `map` projection reads |
| SensorCharts.Pad | src/components/sensor-charts.tsx:75-91 | the axis headroom of each metric is at least 1 (1, 2, 5, 5) |
| SensorCharts.Values | src/components/sensor-charts.tsx:70-73 | the per-metric value list has one entry per reading, in order |
| SensorCharts.Sum | src/components/sensor-charts.tsx:63-66 | the `reduce((sum, item) => sum + item, 0)` left fold from 0 (its bounds and concatenation property are SumAtLeast, SumAtMost and SumAppend) |
| SensorCharts.SumAppend | src/components/sensor-charts.tsx:63-66 | the sum of a concatenation is the sum of the sums, so the left-to-right fold order does not change the total |
| SensorCharts.MinOf | src/components/sensor-charts.tsx:77-89 | `Math.min` of a non-empty list is below or equal to every element |
| SensorCharts.MaxOf | src/components/sensor-charts.tsx:78-90 | `Math.max` of a non-empty list is above or equal to every element |
| SensorCharts.MinOfIsElement | src/components/sensor-charts.tsx:77-89 | the minimum is one of the list's elements |
| SensorCharts.MaxOfIsElement | src/components/sensor-charts.tsx:78-90 | the maximum is one of the list's elements |
| SensorCharts.Floor | src/components/sensor-charts.tsx:77-89 | `Math.floor(x)` is the integer n with n <= x < n + 1 |
| SensorCharts.Ceil | src/components/sensor-charts.tsx:78-90 | `Math.ceil(x)` is the integer n with x <= n < x + 1 |
| SensorCharts.SumAtLeast | src/components/sensor-charts.tsx:63-66 | the `reduce` sum of n values that are all >= b is >= n * b |
| SensorCharts.SumAtMost | src/components/sensor-charts.tsx:63-66 | the `reduce` sum of n values that are all <= b is <= n * b |
| SensorCharts.MeanBetween | src/components/sensor-charts.tsx:63-73 | sum / length of a non-empty list lies between its minimum and maximum |
| SensorCharts.Average | src/components/sensor-charts.tsx:63-66 | a metric's mean over the whole series lies between that metric's minimum and maximum |
| SensorCharts.MetricDomain | src/components/sensor-charts.tsx:75-91 | every value v of the metric satisfies lower <= v - pad and v + pad <= upper; the bounds are tight: min - pad - 1 < lower <= min - pad and max + pad <= upper < max + pad + 1, i.e. floor(min - pad) and ceil(max + pad) |
| SensorCharts.ComputeStats | src/components/sensor-charts.tsx:58-95 | empty data gives no stats (not a zero-filled record); otherwise `latest` is the last element of the series |
| SensorCharts.AverageBetweenMinAndMax | src/components/sensor-charts.tsx:62-73 | in the stats block, min <= avg <= max for every metric |
| SensorCharts.SingleReadingAverageIsLatest | src/components/sensor-charts.tsx:61-66 | for a one-reading series the average of every metric equals the latest value |
| SensorCharts.DomainBounds | src/components/sensor-charts.tsx:75-91 | in the stats block every reading's value is at least `pad` inside its metric's domain, on both sides |
| SensorCharts.DomainWidth | src/components/sensor-charts.tsx:75-91 | each domain is a proper interval: upper - lower >= 2 * pad > 0 |
| SensorCharts.TwoReadingScenario | src/components/sensor-charts.tsx:61-66 | smoke readings 100 then 450 give latest smoke 450 and mean smoke 275 |
| SensorDataHook.ErrorMessage | src/hooks/use-sensor-data.ts:21 | an `Error`'s own message, or the non-empty text "Failed to fetch data" for any other thrown value |
| SensorDataHook.Initial | src/hooks/use-sensor-data.ts:8-11 | the initial cells are `[]`, loading, no error, no update time, and form a consistent state |
| SensorDataHook.Begin | src/hooks/use-sensor-data.ts:15-16 | starting a fetch sets `loading`, clears `error`, and leaves `data` and `lastUpdate` alone |
| SensorDataHook.Settle | src/hooks/use-sensor-data.ts:17-25 | on success `data` is replaced wholesale and `lastUpdate` set; on failure `error` is the Error's message or "Failed to fetch data" and `data`/`lastUpdate` are unchanged; `loading` is false after either |
| SensorDataHook.Fetch | src/hooks/use-sensor-data.ts:13-26 | a whole `fetchData` run: success leaves `error` null with the new data and time, failure keeps the old data and time with the message set, and `loading` ends false |
| SensorDataHook.Step | src/hooks/use-sensor-data.ts:28-43 | `refetch` always runs `fetchData`; a tick runs it only while the interval is armed and changes nothing otherwise; teardown clears the interval |
| SensorDataHook.Mounted | src/hooks/use-sensor-data.ts:28-33 | the mount effect runs the first fetch from the initial state and arms the interval |
| SensorDataHook.FetchConsistent | src/hooks/use-sensor-data.ts:13-26 | each step of a fetch keeps "no update time implies no data" and "an error implies not loading" |
| SensorDataHook.RunConsistent | src/hooks/use-sensor-data.ts:13-43 | any sequence of ticks, refetches and teardowns keeps the state consistent |
| SensorDataHook.ReachableConsistent | src/hooks/use-sensor-data.ts:28-43 | every state reached after mount is consistent |
| SensorDataHook.RefetchIsTick | src/hooks/use-sensor-data.ts:33-43 | while the interval is armed, `refetch` and a tick run the identical transition |
| SensorDataHook.NoTicksAfterTeardown | src/hooks/use-sensor-data.ts:33-35 | after `clearInterval`, any number of ticks leave the hook exactly as it was |
| SensorDataHook.TeardownIsFinal | src/hooks/use-sensor-data.ts:35 | once cleared, the interval stays cleared whatever events follow |
| SensorDataHook.FailureKeepsData | src/hooks/use-sensor-data.ts:20-22 | a failed fetch keeps the previous data and update time and sets an error |
| SensorDataHook.RunData | src/hooks/use-sensor-data.ts:13-43 | after any run, `data` is that of the last successful fetch (or the data before the run), and `error` is null if the last fetch succeeded or its message if it failed |
| SensorDataHook.SensorDataHook.constructor | src/hooks/use-sensor-data.ts:8-11 | the state cells start as `[]`, true, null, null, with no interval |
| SensorDataHook.SensorDataHook.BeginFetch | src/hooks/use-sensor-data.ts:15-16 | the cells move as `Begin` says; the interval is untouched |
| SensorDataHook.SensorDataHook.Succeed | src/hooks/use-sensor-data.ts:17-25 | the cells move as `Settle` says for a success |
| SensorDataHook.SensorDataHook.Fail | src/hooks/use-sensor-data.ts:20-25 | the cells move as `Settle` says for a failure |
| SensorDataHook.SensorDataHook.FetchData | src/hooks/use-sensor-data.ts:13-26 | begin then success or failure: the cells move as `Fetch` says, consistency is kept |
| SensorDataHook.SensorDataHook.Mount | src/hooks/use-sensor-data.ts:28-33 | the first fetch runs and the interval is armed |
| SensorDataHook.SensorDataHook.Tick | src/hooks/use-sensor-data.ts:33 | the hook moves as `Step` says for a tick; it reports whether a fetch ran, which is exactly when the interval was armed |
| SensorDataHook.SensorDataHook.Refetch | src/hooks/use-sensor-data.ts:43 | the hook moves as `Step` says for `refetch` |
| SensorDataHook.SensorDataHook.Teardown | src/hooks/use-sensor-data.ts:35 | the hook moves as `Step` says for teardown: the interval is cleared and the cells stay |
| ViewportHook.Classify | src/hooks/use-viewport.ts:28-42 | exactly one of desktop, tablet, mobile; desktop iff width >= 1024; mobile iff width < 768; enough height iff height >= 800; no scrollbar exactly when desktop width and enough height; width and height returned as stored |
| ViewportHook.LayoutMonotone | src/hooks/use-viewport.ts:28-30 | widening the window never turns desktop off or mobile on |
| ViewportHook.InitialIsMobile | src/hooks/use-viewport.ts:6-9 | the initial 0 x 0 viewport is mobile (not tablet, not desktop) and shows the scrollbar |
| ViewportHook.Viewport.constructor | src/hooks/use-viewport.ts:6-9 | the stored viewport starts at 0 x 0 |
| ViewportHook.Viewport.Update | src/hooks/use-viewport.ts:14-19 | the stored viewport becomes the window's inner width and height |
| ViewportHook.Viewport.Info | src/hooks/use-viewport.ts:28-42 | the returned object is Classify of the stored size: width and height as stored, exactly one layout, desktop iff width >= 1024, mobile iff width < 768, enough height iff height >= 800, scrollbar hidden exactly for a desktop with enough height |

## Left out

- The HTTP request in `fetchThingSpeakData` (src/lib/thingspeak.ts:5-17, 27-30) is not modelled. This covers the `no-store` cache option, the `!response.ok` throw, JSON decoding and the error logging. It is network I/O. Its result reaches the hook as a `FetchOutcome`: readings plus the clock, or a thrown value.
- `parseFloat`'s grammar and `new Date(text)` are library calls. They are the parameters `parse` and `toDate`.
- `new Date()` for `lastUpdate` is a clock read. It is the `now` carried by a successful `FetchOutcome`.
- `setInterval`, the fifteen-second period and the `async`/`await` suspension are timers and concurrency. Ticks and fetch results are explicit sequential events.
- Each fetch runs to completion before the next event. So a refetch racing a timer fetch, where the last response to resolve wins, is not represented.
- A late response arriving after teardown is not represented. The source does not guard against it either.
- IEEE floating point is not modelled: NaN, infinities, -0 and rounding. Readings are exact reals, so `parseFloat("Infinity")` and `-0 || 0` have no counterpart.
- `toFixed`, `formatTimestamp`, `toLocaleString` and `toLocaleTimeString` are locale and rounding formatting. Chart rows keep the timestamp instead of its two labels.
- The React components (dashboard, metric cards, smoke alert banner, sidebar) are rendering only.
- The viewport's `resize` listener and the `typeof window` guard are browser plumbing. Window sizes arrive as arguments to `Viewport.Update`.
- `console.error` logging is not modelled.
