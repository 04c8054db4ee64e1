# btcindicators: a Dafny model of the indicator and screener core

btcindicators is a dashboard of Bitcoin cycle indicators and two altcoin
screeners. Every indicator turns a daily BTC price history, plus data
fetched from an exchange or a public API, into four things:

- a current value;
- a buy, neutral or sell signal;
- chart lines;
- a backtest table. The table is the list of days a trigger fired, kept a
  cooldown apart by one shared engine.

The cycle composite combines the signals of the other indicators into one
daily vote. The altcoin screener ranks the 40 busiest perpetual-futures
coins by a breakout score. The Korean screener lists the coins traded in
won on Upbit and Bithumb, with their "kimchi premium" over the dollar price.

This project models that computation:

- the backtest engine and the simple moving average;
- the indicators: the 200-week moving average, the Mayer multiple,
  stablecoin supply, realized price, the Binance/Coinbase gap, Bitfinex
  longs, Deribit options and mining cost;
- the cycle composite;
- the data adapters that reduce the API bodies to series;
- the two screeners.

The HTTP requests themselves are not modelled. A fetched body is a
parameter of the operation, or a function parameter that answers a request.
Every indicator's loop is a `method` proved against a reference function,
and the properties the source promises are lemmas about those functions.

Modelling conventions:

- **Missing values.** JavaScript's `NaN` and `undefined` are
  `Common.Option`'s `None`.
- **Maps.** A `Map` built by `set` calls is `Common.LastWins`: the last
  value wins. One filled by a `has`-guarded `set` is `Tables.FirstWins`.
- **Sorting.** Array sorting is `Sorting.SortBy`, a stable insertion sort
  ascending by a real-valued key. A descending sort sorts by the negated key.
- **Cooldown backtests.** Every cooldown loop, whether it goes through
  `runBacktest` or is written out by hand in an indicator, is
  `Engine.Scan`. Scan is specified by `Engine.ScanSpec`.
- **Environment.** Calendar conversions (Unix time to a `YYYY-MM-DD` date,
  the year of a date) and `Math.sqrt` are function parameters. Numbers
  are unbounded reals and integers.

## Model

| member | source | states |
|---|---|---|
| Common.Vote | src/lib/indicators/cycle-composite.ts:239-241 | a signal votes +1 exactly when buy, -1 exactly when sell, else 0 |
| Common.Closes | src/lib/indicators/two-hundred-wma.ts:42 | the closes keep the series' length and order |
| Common.DateLeTotal | src/lib/indicators/cycle-composite.ts:280 | the `<=` comparison of `YYYY-MM-DD` strings is a total order |
| Common.DateLeReflexive | src/lib/indicators/cycle-composite.ts:280 | every date is `<=` itself |
| Common.DateLeAntisymmetric | src/lib/indicators/cycle-composite.ts:280 | two dates each `<=` the other are equal |
| Common.DateLeTransitive | src/lib/indicators/cycle-composite.ts:280 | the date comparison is transitive |
| Common.LastWinsLookup | src/lib/indicators/binance-coinbase-gap.ts:34 | a key is in a `new Map(pairs)` exactly when some pair has it, and it maps to the value of the last such pair |
| Common.LastWinsHas | src/lib/indicators/binance-coinbase-gap.ts:34 | a key is in a `new Map(pairs)` exactly when some pair has it |
| Common.LastWinsLast | src/lib/indicators/binance-coinbase-gap.ts:34 | a key in the map holds the value of a pair with that key after which no pair has it |
| Common.BuildMap | src/lib/data/fetch-exchange-prices.ts:83-86 | the `map.set` loop builds the same last-wins table |
| Common.FirstAppearance | src/lib/data/fetch-stablecoin-supply.ts:49-56 | a Map's key order has no duplicates and holds exactly the keys that were set |
| Common.FirstAppearanceSnoc | src/lib/data/fetch-stablecoin-supply.ts:51-56 | setting a key appends it to the key order only when it is new |
| Common.PriceIndexIsLast | src/lib/indicators/cycle-composite.ts:433 | `new Map(prices.map((p, i) => [p.date, i]))` has a date exactly when some row has it, and holds the last index of that date |
| Common.ContainsOccurs | src/lib/altcoins/fetch-altcoin-data.ts:155 | the `includes` scan finds a part exactly when it occurs at some index |
| Common.RemoveFirst | src/lib/korean/fetch-korean-data.ts:203 | `replace(pattern, "")` strips a leading pattern, leaves a string without the pattern alone, and otherwise shortens it by the pattern's length |
| Common.AsciiUpper | src/lib/altcoins/fetch-altcoin-data.ts:143 | `toUpperCase` keeps the length and maps exactly the letters a-z to A-Z |
| Common.SumAppend | src/lib/utils/moving-average.ts:11 | adding a value to the running sum adds it to the total |
| Common.SumFront | src/lib/utils/moving-average.ts:13 | a sum is its first value plus the sum of the rest, which is what dropping the oldest window value relies on |
| Common.PctChange | src/lib/indicators/cycle-composite.ts:493-497 | a percentage change exists exactly when the base is non-zero, and over a positive base it is non-negative exactly when the price did not fall |
| Common.OffsetReturn | src/lib/indicators/cycle-composite.ts:486-498 | the `lookAhead` return is missing past the end of the series, and otherwise is the percentage change to the close `days` rows later |
| Common.DateReturn | src/lib/indicators/bitfinex-longs.ts:117-124 | a return by date lookup exists exactly when the target date has a truthy close and the base close is non-zero |
| Sorting.InsertFacts | src/lib/data/fetch-exchange-prices.ts:87-89 | inserting into a sorted list keeps it sorted and adds exactly the one element |
| Sorting.InsertPermutes | src/lib/data/fetch-exchange-prices.ts:87-89 | inserting adds exactly the one element and keeps every other |
| Sorting.InsertSorted | src/lib/data/fetch-exchange-prices.ts:87-89 | inserting into a list sorted by the key keeps it sorted |
| Sorting.SortByFacts | src/lib/data/fetch-exchange-prices.ts:87-89 | the sort's output is ordered by the key and is a permutation of its input |
| Sorting.PrefixDominates | src/lib/altcoins/fetch-altcoin-data.ts:171-172 | after a sort, nothing outside the first `m` elements has a smaller key than an element inside them |
| Sorting.PermutationNoDuplicates | src/lib/data/fetch-stablecoin-supply.ts:71-72 | sorting a list without duplicates creates none |
| Tables.KeysOf | src/lib/data/fetch-exchange-prices.ts:84-86 | the dates of the items, in item order |
| Tables.Keyed | src/lib/data/fetch-exchange-prices.ts:84-86 | the `[date, item]` pairs, in item order |
| Tables.LastWinsKeys | src/lib/data/fetch-exchange-prices.ts:83-86 | a date is in the last-wins table exactly when some item has it |
| Tables.FirstWinsKeys | src/lib/data/fetch-bitfinex-longs.ts:32-57 | a date is in the `has`-guarded table exactly when some item has it |
| Tables.FirstWinsValue | src/lib/data/fetch-bitfinex-longs.ts:50-55 | the `has`-guarded table holds the first item of each date |
| Tables.LastWinsValue | src/lib/data/fetch-exchange-prices.ts:84-86 | the `set` table holds the last item of each date |
| Tables.LastPerKeyFacts | src/lib/data/fetch-exchange-prices.ts:83-87 | `Array.from(byDate.values())` has one item per date, exactly the dates of the input, each the last item of its date |
| Tables.FirstPerKeyFacts | src/lib/data/fetch-bitfinex-longs.ts:32-59 | the first-wins values have one item per date, exactly the dates of the input, each the first item of its date |
| Tables.DistinctKeysBound | src/lib/data/fetch-exchange-prices.ts:83-87 | a list of distinct dates drawn from another list is no longer than it |
| Tables.SortKeepsKeys | src/lib/data/fetch-exchange-prices.ts:87-89 | a stable sort by timestamp keeps the items, their dates and their distinctness |
| Tables.FirstWinsAppend | src/lib/data/fetch-bitfinex-longs.ts:50-55 | one more item adds its date to the first-wins table only when the date is new |
| Tables.DedupeLast | src/lib/data/fetch-exchange-prices.ts:83-87 | the `byDate.set` loop and `values()` give one item per date, the last |
| Tables.DedupeFirst | src/lib/data/fetch-bitfinex-longs.ts:46-59 | the `has`-guarded loop and `values()` give one item per date, the first |
| Engine.Scan | src/lib/backtest/engine.ts:13-28 | the index loop with its cooldown skip and trigger produces exactly the reference scan |
| Engine.ScanSpaced | src/lib/backtest/engine.ts:17-27 | fired indices are in range, strictly increasing, pairwise at least `cooldown` apart, each with its trigger's row; there are at most `n` of them |
| Engine.ScanFires | src/lib/backtest/engine.ts:18-26 | an index fires exactly when it is in range, its trigger yields a row, and no earlier fired index lies within the cooldown before it |
| Engine.ScanFirstTriggerFires | src/lib/backtest/engine.ts:14-21 | with `lastTriggerIndex = -Infinity` the first index whose trigger yields a row always fires |
| Engine.ScanExample | src/lib/backtest/engine.ts:17-27 | with cooldown 5 and a trigger true at 0, 1, 2, 10 and 11, rows fire exactly at 0 and 10 |
| Engine.Cooldown | src/lib/backtest/engine.ts:15 | the cooldown defaults to 30 when the configuration gives none |
| Engine.RunBacktest | src/lib/backtest/engine.ts:4-35 | the table keeps the configured title and column labels, and its rows are the scan's rows, each passed through `enrich` when given |
| Engine.EngineRows | src/lib/backtest/engine.ts:17-27 | every engine row is the (enriched) row of an index whose trigger fired, in increasing index order, at least the cooldown apart |
| MovingAverage.SmaSpec | src/lib/utils/moving-average.ts:6-21 | the reference moving average has one entry per input value |
| MovingAverage.WindowStep | src/lib/utils/moving-average.ts:10-14 | adding the new value and dropping the one `period` back turns one window's sum into the next one's |
| MovingAverage.Sma | src/lib/utils/moving-average.ts:6-21 | the running-sum loop gives each position its window mean, and a position is NaN exactly while the window is not full |
| MovingAverage.SmaMissing | src/lib/utils/moving-average.ts:15-17 | a position has no mean exactly while fewer than `period` values have been seen |
| MovingAverage.SmaExample | src/lib/utils/moving-average.ts:6-21 | `sma([1, 2, 3, 4, 5], 3)` is `[NaN, NaN, 2, 3, 4]` |
| MovingAverage.SumConstant | src/lib/utils/moving-average.ts:11 | the sum of `n` copies of `c` is `n * c` |
| MovingAverage.SmaOfFlatWindow | src/lib/utils/moving-average.ts:15-17 | over a window where the series is flat, the average equals that level |
| MovingAverage.DefinedLine | src/lib/indicators/two-hundred-wma.ts:59-64 | the charting loop that skips NaN entries of an average builds the reference line of the defined entries, in order |
| MovingAverage.DefinedLineExact | src/lib/indicators/two-hundred-wma.ts:61-63 | a point is on an average's line exactly when some position has that date and that defined average |
| MovingAverage.LineFromOffset | src/lib/indicators/two-hundred-wma.ts:59-64 | an average undefined exactly before some position plots one point per date from there on, with that date's value |
| MovingAverage.SmaLine | src/lib/indicators/two-hundred-wma.ts:59-64 | the line of a `period` average has `n - period + 1` points (none for a shorter series), the `k`-th at date `period - 1 + k` with that window's mean |
| ExchangeFetch.FromKline | src/lib/data/fetch-exchange-prices.ts:26-32 | a kline's timestamp is its open time in whole seconds (the floor of ms / 1000), its date that second's, and its close field 4 |
| ExchangeFetch.BinanceRows | src/lib/data/fetch-exchange-prices.ts:24-33 | the filtered klines are never more than the input |
| ExchangeFetch.BinanceRowsFaithful | src/lib/data/fetch-exchange-prices.ts:24-33 | every kline of at least five fields gives a price, and every price comes from such a kline |
| ExchangeFetch.ChunkCount | src/lib/data/fetch-exchange-prices.ts:48 | the offset loop makes ceil(days / 300) windows, and none for a non-positive span |
| ExchangeFetch.ChunkRanges | src/lib/data/fetch-exchange-prices.ts:47-54 | the loop makes ChunkCount windows, the k-th ending 300k days ago and starting 300 days before that |
| ExchangeFetch.ChunksCover | src/lib/data/fetch-exchange-prices.ts:47-54 | every day of the span lies in window `d / 300` |
| ExchangeFetch.FromCandle | src/lib/data/fetch-exchange-prices.ts:74-78 | a Coinbase candle's close is field 4, its timestamp its time field (exactly, for a whole number of seconds) and its date that of the timestamp |
| ExchangeFetch.CandleRows | src/lib/data/fetch-exchange-prices.ts:72-79 | the usable candles of one body are never more than the body |
| ExchangeFetch.CollectCandles | src/lib/data/fetch-exchange-prices.ts:69-80 | the nested loop collects every usable candle of every array body, in response order, and skips bodies that are not arrays |
| ExchangeFetch.CoinbasePrices | src/lib/data/fetch-exchange-prices.ts:69-89 | the Coinbase series is the last candle per date, sorted by timestamp |
| ExchangeFetch.CoinbaseFacts | src/lib/data/fetch-exchange-prices.ts:82-89 | the Coinbase series is sorted by timestamp, has one price per date and exactly the dates of the candles, and keeps the last candle of each date |
| BitfinexFetch.ChunkRanges | src/lib/data/fetch-bitfinex-longs.ts:19-29 | the `while (cursor > startMs)` loop produces the reference windows, from now back `days` days |
| BitfinexFetch.ChunksFacts | src/lib/data/fetch-bitfinex-longs.ts:23-29 | there are windows exactly when the span is positive; the first ends now, each lies in the span and covers at most 10000 hours, and each next one ends 1 ms before the previous one starts |
| BitfinexFetch.ChunksCover | src/lib/data/fetch-bitfinex-longs.ts:23-29 | every millisecond after the start, up to now, lies in some window |
| BitfinexFetch.PointOf | src/lib/data/fetch-bitfinex-longs.ts:49-54 | an hourly entry's timestamp is its milliseconds floored to seconds, its date that of its milliseconds, and its longs its value |
| BitfinexFetch.Points | src/lib/data/fetch-bitfinex-longs.ts:48-56 | one point per entry, in order |
| BitfinexFetch.DailyStep | src/lib/data/fetch-bitfinex-longs.ts:50-55 | one more entry adds its date, with itself, only when the date is not yet in `dailyMap` |
| BitfinexFetch.DailyKeysPresent | src/lib/data/fetch-bitfinex-longs.ts:32-57 | every key in the insertion order is in `dailyMap` |
| BitfinexFetch.AddEntries | src/lib/data/fetch-bitfinex-longs.ts:48-56 | the inner loop adds one body's entries and keeps `dailyMap` the first-wins table of everything seen |
| BitfinexFetch.DailyLongs | src/lib/data/fetch-bitfinex-longs.ts:46-65 | the response loop and the sort give the first entry of each date, sorted by timestamp |
| BitfinexFetch.DailyFacts | src/lib/data/fetch-bitfinex-longs.ts:46-65 | the daily series is sorted by timestamp, has one point per date and exactly the dates of the entries, and keeps the first entry of each date |
| StablecoinFetch.ToPoint | src/lib/data/fetch-stablecoin-supply.ts:28-35 | a chart entry keeps its timestamp, takes that timestamp's date, and has supply `peggedUSD`, or 0 when it is missing |
| StablecoinFetch.DatesOf | src/lib/data/fetch-stablecoin-supply.ts:51-56 | the dates of the points, in order |
| StablecoinFetch.UsdcFirstTs | src/lib/data/fetch-stablecoin-supply.ts:58-68 | a date no USDC point has yet carries no USDC supply |
| StablecoinFetch.UsdcFirstTsPresent | src/lib/data/fetch-stablecoin-supply.ts:58-68 | a first USDC timestamp exists for a date exactly when some USDC point has that date |
| StablecoinFetch.UsdtPairs | src/lib/data/fetch-stablecoin-supply.ts:51-56 | one `(date, {timestamp, supply})` record per USDT point, in order |
| StablecoinFetch.InsertUsdt | src/lib/data/fetch-stablecoin-supply.ts:49-56 | the USDT loop leaves the last-wins table of the USDT records, keyed in first-appearance order |
| StablecoinFetch.UsdtTableKeys | src/lib/data/fetch-stablecoin-supply.ts:51-56 | a date is in the USDT table exactly when some USDT point has it |
| StablecoinFetch.UsdtTableLast | src/lib/data/fetch-stablecoin-supply.ts:51-56 | the USDT table holds each date's last USDT point |
| StablecoinFetch.AddPointMerges | src/lib/data/fetch-stablecoin-supply.ts:59-67 | one USDC point adds to an existing record or creates its date's record, and changes no other date |
| StablecoinFetch.AddUsdcStart | src/lib/data/fetch-stablecoin-supply.ts:58 | before any USDC point, the table holds exactly the USDT merge |
| StablecoinFetch.AddUsdcStep | src/lib/data/fetch-stablecoin-supply.ts:58-68 | one USDC point keeps the table equal to the merge so far and the key order to the first appearances |
| StablecoinFetch.AddUsdc | src/lib/data/fetch-stablecoin-supply.ts:58-68 | the USDC loop leaves the merge of both series, keyed in first-appearance order over USDT then USDC dates |
| StablecoinFetch.MergeSupply | src/lib/data/fetch-stablecoin-supply.ts:42-78 | the result is the Map's merged entries sorted by timestamp |
| StablecoinFetch.MergedAtPresent | src/lib/data/fetch-stablecoin-supply.ts:49-68 | a date has a merged record exactly when either series has it |
| StablecoinFetch.EntriesFacts | src/lib/data/fetch-stablecoin-supply.ts:71-77 | each entry is its date's merged record, no date appears twice, and every date of either series appears |
| StablecoinFetch.MergeFacts | src/lib/data/fetch-stablecoin-supply.ts:71-77 | the merged series is sorted by timestamp, a permutation of the entries, one record per date, with exactly the dates of either series, each its date's merge |
| StablecoinFetch.MergedBoth | src/lib/data/fetch-stablecoin-supply.ts:51-62 | a date USDT has carries its last USDT point's timestamp and that point's supply plus every USDC supply of the date |
| StablecoinFetch.MergedUsdcOnly | src/lib/data/fetch-stablecoin-supply.ts:58-68 | a date only USDC has carries its first USDC point's timestamp and the sum of its USDC supplies |
| TwoHundredWma.ResampleToWeekly | src/lib/indicators/two-hundred-wma.ts:16-34 | the resampling loop produces the reference fold over the daily points |
| TwoHundredWma.RunLasts | src/lib/indicators/two-hundred-wma.ts:24-30 | the independent definition (the last point of each run of equal week numbers) keeps at most every point |
| TwoHundredWma.LeadingDropped | src/lib/indicators/two-hundred-wma.ts:18 | the leading points whose week number equals the initial `currentWeek = -1` are counted exactly |
| TwoHundredWma.WeeklyFoldRuns | src/lib/indicators/two-hundred-wma.ts:20-31 | from a state whose current week is that of its last point, the fold replaces that point within its run and then keeps each run's last point |
| TwoHundredWma.WeeklyIsRunLasts | src/lib/indicators/two-hundred-wma.ts:16-34 | the weekly series is the last point of every run of equal weeks, after the leading week -1 points the initial state swallows |
| TwoHundredWma.RunLastsWeeksChange | src/lib/indicators/two-hundred-wma.ts:24-30 | consecutive weekly points lie in different weeks; the last daily point is the last weekly one, and the first weekly point is in the first daily point's week |
| TwoHundredWma.WeekOfMonotone | src/lib/indicators/two-hundred-wma.ts:22 | the floored week number never decreases as the timestamp grows |
| TwoHundredWma.RunLastsAscending | src/lib/indicators/two-hundred-wma.ts:24-30 | the weekly points of an ascending series are ascending and are points of the series |
| TwoHundredWma.WeeklyWeeksIncrease | src/lib/indicators/two-hundred-wma.ts:16-34 | for an ascending daily series, the weekly points' week numbers strictly increase |
| TwoHundredWma.RatioAbove | src/lib/indicators/two-hundred-wma.ts:47-52 | over a positive WMA, `price / wma > bound` exactly when `price > bound * wma` |
| TwoHundredWma.WmaSignal | src/lib/indicators/two-hundred-wma.ts:45-53 | buy exactly when the price is at or below a defined WMA; over a positive WMA, sell exactly when the price is above three times it; neutral when the WMA is NaN |
| TwoHundredWma.TouchTrigger | src/lib/indicators/two-hundred-wma.ts:77-88 | fires exactly when the WMA is defined and non-zero and the close is within 5% of it, with that week's date and WMA |
| TwoHundredWma.WeeksNearSpec | src/lib/indicators/two-hundred-wma.ts:91-101 | the count of weeks near the WMA never runs past the data |
| TwoHundredWma.WeeksNearMaximal | src/lib/indicators/two-hundred-wma.ts:91-101 | every counted week is within 10% of a defined WMA, and the week after them is not (or the data ends) |
| TwoHundredWma.WeeksNear | src/lib/indicators/two-hundred-wma.ts:91-101 | the `break` loop counts exactly the reference weeks near |
| TwoHundredWma.MaxCloseIsMax | src/lib/indicators/two-hundred-wma.ts:104-108 | the best close of a window is at least every close in it and is one of them |
| TwoHundredWma.MaxPrice | src/lib/indicators/two-hundred-wma.ts:104-108 | the look-ahead loop finds the best close from the touch to 52 weeks on (or the end) |
| TwoHundredWma.TimeLabelOf | src/lib/indicators/two-hundred-wma.ts:114-119 | "Days" exactly up to one week, "N weeks" exactly from two to four, otherwise months as the weeks / 4 rounded to nearest |
| TwoHundredWma.TouchRows | src/lib/indicators/two-hundred-wma.ts:69-130 | every touch row is a week within 5% of a defined WMA, at least 52 weeks after the previous one; price stayed near at least that week, and over a positive close the return to the best close of the next year is never negative |
| TwoHundredWma.Calculate | src/lib/indicators/two-hundred-wma.ts:40-130 | fails exactly when the weekly series is empty; otherwise reports the last WMA, the signal of the last weekly close against it, one price point per week, the WMA line of the weeks where it is defined, and the touch backtest with cooldown 52 |
| MayerMultiple.MayerSignal | src/lib/indicators/mayer-multiple.ts:17-21 | buy exactly below 0.8, sell exactly above 2.4, neutral exactly between them or for a NaN value |
| MayerMultiple.MayerBarColor | src/lib/indicators/mayer-multiple.ts:23-27 | a bar is green exactly when its value would signal buy and red exactly when it would signal sell |
| MayerMultiple.MayerValues | src/lib/indicators/mayer-multiple.ts:38-40 | one value per day, defined exactly where the SMA is defined and non-zero, and then the close over the SMA |
| MayerMultiple.MaxOfIsMax | src/lib/indicators/mayer-multiple.ts:54 | `Math.max(...values)` bounds every value and is one of them |
| MayerMultiple.SeenBeforeGrows | src/lib/indicators/mayer-multiple.ts:46-51 | a year seen before another stays so as more days are grouped |
| MayerMultiple.GroupByYear | src/lib/indicators/mayer-multiple.ts:45-51 | the grouping loop holds a year exactly when it has a defined value, holds that year's defined values in day order, and keys the years once each, in order of first appearance |
| MayerMultiple.YearlyBars | src/lib/indicators/mayer-multiple.ts:45-60 | one bar per year with a defined value, in first-appearance order, at that year's peak, colored by the peak |
| MayerMultiple.YearPeakIsMax | src/lib/indicators/mayer-multiple.ts:53-54 | no defined value exceeds its year's peak, and the peak is one of the year's values |
| MayerMultiple.ValuesOfYearContains | src/lib/indicators/mayer-multiple.ts:47-50 | every defined value is among the values of its year |
| MayerMultiple.MayerTrigger | src/lib/indicators/mayer-multiple.ts:72-79 | fires exactly on a defined Mayer multiple of at most 0.6, with that day's date, close and multiple |
| MayerMultiple.MayerEnrich | src/lib/indicators/mayer-multiple.ts:80-99 | keeps the row's fields and adds the returns 180 and 365 rows later |
| MayerMultiple.MayerRows | src/lib/indicators/mayer-multiple.ts:63-101 | rows are days with a multiple of at most 0.6, at least 60 days apart; a return is "?" exactly past the end of the series (or over a zero close) |
| MayerMultiple.Calculate | src/lib/indicators/mayer-multiple.ts:33-117 | the current multiple is the last day's (`None` for no days, where the source throws), the signal is its signal; the bars are one per year with a defined multiple, each year once, in first-appearance order, at that year's peak and with its colour; and the rows are the engine's with cooldown 60 |
| StablecoinSupply.FormatSupply | src/lib/indicators/stablecoin-supply.ts:18-23 | trillions exactly from 1e12, billions exactly in [1e9, 1e12), millions exactly in [1e6, 1e9), plain dollars below, each scaled back to the value (the rounding of `toFixed` is left out) |
| StablecoinSupply.RocAt | src/lib/indicators/stablecoin-supply.ts:30-33 | the change is defined exactly from index `period` on over a positive base; it is then the percentage change, positive exactly when the supply grew |
| StablecoinSupply.ComputeRateOfChange | src/lib/indicators/stablecoin-supply.ts:25-36 | the loop gives one entry per point, each the reference change |
| StablecoinSupply.RocSignal | src/lib/indicators/stablecoin-supply.ts:53-56 | buy exactly above +3%, sell exactly below -1%, neutral for a NaN change |
| StablecoinSupply.BuildNewAthBacktest | src/lib/indicators/stablecoin-supply.ts:110-161 | the loop emits exactly the rows of the reference state machine over the supply points |
| StablecoinSupply.AthBefore | src/lib/indicators/stablecoin-supply.ts:115 | the running high starts at 0 and is never negative |
| StablecoinSupply.AthBeforeIsMax | src/lib/indicators/stablecoin-supply.ts:128-153 | the running high bounds every earlier supply and is 0 or one of them |
| StablecoinSupply.PullbackClearedByNewAth | src/lib/indicators/stablecoin-supply.ts:153-154 | a new high clears any pending pullback |
| StablecoinSupply.PullbackKept | src/lib/indicators/stablecoin-supply.ts:155-157 | without a new high, a pullback is pending exactly when this point is 5% below the high or one was pending already |
| StablecoinSupply.StateStep | src/lib/indicators/stablecoin-supply.ts:125-158 | one step keeps `ath` the running high and `hadPullback` the pending-pullback condition |
| StablecoinSupply.AthRunInvariant | src/lib/indicators/stablecoin-supply.ts:114-158 | after each point, `ath` is the running high, `hadPullback` says a 5% pullback is pending, `lastTriggerIdx` is the last row's index, and every row is justified and at least 90 points after the previous one |
| StablecoinSupply.InvariantStep | src/lib/indicators/stablecoin-supply.ts:125-158 | one iteration of the loop keeps the running high, the pending pullback, the last trigger and the justified, spaced rows |
| StablecoinSupply.AthEmitted | src/lib/indicators/stablecoin-supply.ts:128-151 | a strict new high after a pending pullback, on a date BTC has a close, at least 90 points after every earlier row, is emitted |
| StablecoinSupply.AthRows | src/lib/indicators/stablecoin-supply.ts:105-161 | every row is a strict new high after a pending pullback on a date with a BTC close, with its 180-day return, and rows are at least 90 points apart |
| StablecoinSupply.Supplies | src/lib/indicators/stablecoin-supply.ts:45 | the supplies keep the points' length and order |
| StablecoinSupply.Calculate | src/lib/indicators/stablecoin-supply.ts:42-102 | the current supply and change are the last point's (`None` for no points, where the source throws), the signal is that change's, and the rows are the ATH backtest's |
| RealizedPrice.RealizedSignal | src/lib/indicators/realized-price.ts:17-21 | buy exactly at or below MVRV 1.0, sell exactly from 3.5, neutral for a NaN MVRV |
| RealizedPrice.FilledSpec | src/lib/indicators/realized-price.ts:37-43 | one aligned value per BTC day, each the realized price in force that day |
| RealizedPrice.Align | src/lib/indicators/realized-price.ts:37-43 | the loop carrying `lastKnown` forward produces exactly the reference alignment |
| RealizedPrice.FilledIsLatest | src/lib/indicators/realized-price.ts:38-42 | the aligned value is the realized price of the latest day so far that has one, and 0 when no day so far has one |
| RealizedPrice.Mvrv | src/lib/indicators/realized-price.ts:46-48 | one MVRV per day, defined exactly where the aligned realized price is positive, and then the close over it |
| RealizedPrice.Multiples | src/lib/indicators/realized-price.ts:58 | the loop indices `0, 7, 14, ...` |
| RealizedPrice.SampleCount | src/lib/indicators/realized-price.ts:58 | the `i += 7` loop runs ceil(n / 7) times |
| RealizedPrice.SampleIndicesExact | src/lib/indicators/realized-price.ts:58-73 | an index is sampled exactly when it is a multiple of 7 or the last one, and the samples ascend |
| RealizedPrice.ChartLines | src/lib/indicators/realized-price.ts:54-73 | the sampling loop and the latest-point step give the price line (sampled positive closes, then the last close) and the realized line (sampled positive realized prices, then the last one when positive) |
| RealizedPrice.RealizedEnrich | src/lib/indicators/realized-price.ts:97-116 | keeps the row's fields and adds the returns 180 and 365 rows later |
| RealizedPrice.RealizedRows | src/lib/indicators/realized-price.ts:76-118 | rows are days from 2012 on with a realized price in force and MVRV below 1.2, at least 90 days apart; a return is "?" exactly past the end (or over a zero close) |
| RealizedPrice.DistancePct | src/lib/indicators/realized-price.ts:120-123 | over a positive realized price the distance is the percentage above it, positive exactly when the close is above it; 0 otherwise |
| RealizedPrice.Calculate | src/lib/indicators/realized-price.ts:27-144 | fails exactly when there are no BTC prices; otherwise reports the last aligned realized price, the signal of the last MVRV, the chart lines and the engine's rows with cooldown 90 |
| BinanceCoinbaseGap.CoinbaseByDate | src/lib/indicators/binance-coinbase-gap.ts:34 | the Coinbase lookup has exactly the dates of the Coinbase series |
| BinanceCoinbaseGap.LastWinsDomain | src/lib/indicators/binance-coinbase-gap.ts:34 | a `new Map(pairs)` has exactly the keys of its pairs |
| BinanceCoinbaseGap.PointOf | src/lib/indicators/binance-coinbase-gap.ts:41-46 | an aligned day keeps both closes, its gap is the Coinbase premium in percent over the Binance close, and the gap is positive exactly when Coinbase is higher |
| BinanceCoinbaseGap.Align | src/lib/indicators/binance-coinbase-gap.ts:36-48 | the alignment loop keeps, in Binance order, the days where Coinbase has a non-zero close and Binance's close is positive |
| BinanceCoinbaseGap.AlignedFaithful | src/lib/indicators/binance-coinbase-gap.ts:36-48 | every kept Binance day has its premium in the series, every point comes from a kept day, and there are no more points than Binance days |
| BinanceCoinbaseGap.GapSignal | src/lib/indicators/binance-coinbase-gap.ts:59-62 | buy exactly above a 0.1% premium, sell exactly below -0.05% |
| BinanceCoinbaseGap.FirstIndexOf | src/lib/indicators/binance-coinbase-gap.ts:155-156 | `findIndex` returns the first row with the date, or none when no row has it |
| BinanceCoinbaseGap.FindDateOffset | src/lib/indicators/binance-coinbase-gap.ts:150-160 | the close `days` rows after the date's first row, present exactly when that row exists and is within the series |
| BinanceCoinbaseGap.ForwardReturn | src/lib/indicators/binance-coinbase-gap.ts:93-98 | a return exists exactly when the future close is present and non-zero (and the base is non-zero), and it is the percentage change |
| BinanceCoinbaseGap.Backtest | src/lib/indicators/binance-coinbase-gap.ts:79-109 | the hand-written cooldown loop is the engine scan of the gap trigger with cooldown 14 |
| BinanceCoinbaseGap.GapRows | src/lib/indicators/binance-coinbase-gap.ts:82-109 | each row is a day with a premium of at least 0.2% and a non-zero BTC close, with the returns 30 and 90 rows on, and rows are at least 14 aligned days apart |
| BinanceCoinbaseGap.GapFires | src/lib/indicators/binance-coinbase-gap.ts:82-108 | a day with a qualifying premium and BTC close fires unless a row fired in the 14 aligned days before it |
| BinanceCoinbaseGap.Calculate | src/lib/indicators/binance-coinbase-gap.ts:27-130 | no aligned day gives 0, neutral and no rows; otherwise the last gap, its signal and the backtest rows |
| BitfinexLongs.Longs | src/lib/indicators/bitfinex-longs.ts:30 | the longs keep the points' length and order |
| BitfinexLongs.BaseIndex | src/lib/indicators/bitfinex-longs.ts:34-35 | the base is exactly 30 points before the latest when there are more than 30, else the first point |
| BitfinexLongs.Roc30 | src/lib/indicators/bitfinex-longs.ts:33-36 | over a positive base the change is the percentage change from the base to the latest value; otherwise 0 |
| BitfinexLongs.LongsSignal | src/lib/indicators/bitfinex-longs.ts:39-42 | buy exactly above +10%, sell exactly below -10% |
| BitfinexLongs.Deviation | src/lib/indicators/bitfinex-longs.ts:110 | the deviation is the percentage by which the longs exceed a non-zero average |
| BitfinexLongs.SpikeBacktest | src/lib/indicators/bitfinex-longs.ts:98-138 | the hand-written cooldown loop is the engine scan of the spike trigger with cooldown 14 |
| BitfinexLongs.SpikeRows | src/lib/indicators/bitfinex-longs.ts:106-135 | each row is a day with a defined non-zero average, longs at least 10% above it and a non-zero BTC close, with the return to the close 30 calendar days on; rows are at least 14 points apart |
| BitfinexLongs.SpikeFires | src/lib/indicators/bitfinex-longs.ts:106-134 | a qualifying day fires unless a row fired in the 14 points before it |
| BitfinexLongs.Calculate | src/lib/indicators/bitfinex-longs.ts:23-78 | fewer than two points give 0, neutral and no rows; otherwise the latest longs, the signal of the 30-day change, and the spike rows |
| DeribitFetch.Summarize | src/lib/data/fetch-deribit-options.ts:31-66 | a missing, non-array or empty book gives the all-zero summary; otherwise the accumulator loop yields the put/call ratio (0 without call interest), the total interest, the interest-weighted IV (0 without weight) and the last positive underlying price |
| DeribitFetch.PutCallWithinTotal | src/lib/data/fetch-deribit-options.ts:42-50 | with non-negative interests, put and call interest are non-negative and together at most the total |
| DeribitFetch.PutOrCall | src/lib/data/fetch-deribit-options.ts:43-44 | no instrument name ends in both "-P" and "-C" |
| DeribitFetch.IvNonNegative | src/lib/data/fetch-deribit-options.ts:51-54 | only positive IVs with positive interest are weighed, so the weight and the weighted sum are non-negative and positive together |
| DeribitFetch.AggregateIvPositive | src/lib/data/fetch-deribit-options.ts:51-64 | the aggregate IV is non-negative, and positive exactly when some entry has positive IV and positive interest |
| DeribitFetch.LastUnderlyingIsLast | src/lib/data/fetch-deribit-options.ts:56-65 | the underlying price is 0 exactly when no entry has a positive one, and otherwise the last such entry's |
| DeribitFetch.DvolPointOf | src/lib/data/fetch-deribit-options.ts:97-103 | the timestamp is the candle's milliseconds floored to seconds, the date comes from the milliseconds and the IV is the close |
| DeribitFetch.DvolHistory | src/lib/data/fetch-deribit-options.ts:93-104 | a body that is not an array gives no points; otherwise one point per candle, in order |
| DeribitOptions.Opts | src/lib/indicators/deribit-options.ts:27-30 | the fetched summary, or the all-zero one when its request was rejected |
| DeribitOptions.PcrSignal | src/lib/indicators/deribit-options.ts:37-40 | buy exactly at a ratio of at least 0.7, sell exactly at most 0.4 |
| DeribitOptions.RejectedSummaryIsSell | src/lib/indicators/deribit-options.ts:27-40 | a rejected summary request reads as a ratio of 0, a sell |
| DeribitOptions.OiLabelUnit | src/lib/indicators/deribit-options.ts:60-65 | millions exactly from 1e6, thousands exactly from 1e3 below 1e6, plain units below 1e3 |
| DeribitOptions.VolJump | src/lib/indicators/deribit-options.ts:89-126 | the hand-written cooldown loop from index 7 is the engine scan of the jump trigger with cooldown 21 |
| DeribitOptions.JumpRows | src/lib/indicators/deribit-options.ts:98-123 | each row is at an index of at least 7 where DVOL rose at least 5 points over the 7 before and BTC has a non-zero close, with the return to the close 30 calendar days on; rows are at least 21 points apart |
| DeribitOptions.FirstJumpFires | src/lib/indicators/deribit-options.ts:98-123 | the first qualifying jump always gives a row |
| DeribitOptions.Calculate | src/lib/indicators/deribit-options.ts:21-86 | reports the summary's ratio, its signal, the interest's unit and the jump rows over the BTC closes |
| MiningFetch.CostPerBtc | src/lib/data/fetch-mining-data.ts:45-69 | the cost per coin is one dollar per 15000 TH/s, non-negative for a non-negative rate |
| MiningFetch.CostLinear | src/lib/data/fetch-mining-data.ts:66-69 | the cost is linear in the hash rate |
| MiningFetch.MiningCost | src/lib/data/fetch-mining-data.ts:56-78 | one point per hash-rate sample, in order, with its timestamp, date and rate, the cost of that rate and the difficulty looked up by date |
| MiningFetch.DifficultyMissing | src/lib/data/fetch-mining-data.ts:60 | a date no difficulty sample has reads difficulty 0 |
| MiningFetch.DifficultyOfLastSample | src/lib/data/fetch-mining-data.ts:56-60 | a date's difficulty is the value of the last sample with that date |
| MiningFetch.CostIgnoresDifficulty | src/lib/data/fetch-mining-data.ts:58-77 | the estimated cost does not depend on the difficulty samples |
| MiningCostIndicator.CostRatio | src/lib/indicators/mining-cost.ts:20 | over a positive cost the ratio times the cost is the price; otherwise 0 |
| MiningCostIndicator.MiningSignal | src/lib/indicators/mining-cost.ts:26-28 | buy exactly at a ratio of at most 1.2, sell exactly at least 3 |
| MiningCostIndicator.NonPositiveCostIsBuy | src/lib/indicators/mining-cost.ts:20-26 | a cost that is not positive gives ratio 0 and so a buy |
| MiningCostIndicator.BtcLine | src/lib/indicators/mining-cost.ts:31-45 | the loop collects, in mining order, the mining dates with a non-zero BTC close |
| MiningCostIndicator.BtcLineExact | src/lib/indicators/mining-cost.ts:41-44 | a point is on the BTC line exactly when its date is a mining date with a non-zero close and the value is that close |
| MiningCostIndicator.FutureClose | src/lib/indicators/mining-cost.ts:110-115 | a future close exists exactly when the date has a price row and the row 180 after it is within the series |
| MiningCostIndicator.CostBacktest | src/lib/indicators/mining-cost.ts:89-133 | the hand-written cooldown loop is the engine scan of the cost trigger with cooldown 60 |
| MiningCostIndicator.CostRows | src/lib/indicators/mining-cost.ts:98-129 | each row has a positive cost and a non-zero BTC close at most 1.5 times it; its return is missing exactly when there is no non-zero close 180 rows on; rows are at least 60 samples apart |
| MiningCostIndicator.Calculate | src/lib/indicators/mining-cost.ts:10-69 | fewer than two samples give the empty result; with samples it fails exactly when there are no prices, and otherwise reports the latest cost, the ratio and signal of the latest close, the BTC line and the backtest rows |
| CompositeSignals.SetDefinedLookup | src/lib/indicators/cycle-composite.ts:234-243 | a date is in a filled map exactly when some entry sets it, and it holds the value of the last entry that does |
| CompositeSignals.SetDefinedVotes | src/lib/indicators/cycle-composite.ts:239-241 | votes of -1, 0 and +1 give a map holding only those votes |
| CompositeSignals.NoEarlyVotes | src/lib/indicators/cycle-composite.ts:330 | a map filled only from undefined votes is empty |
| CompositeSignals.FillMap | src/lib/indicators/cycle-composite.ts:236-242 | the `set`-in-a-loop fill is the map of every defined value, the last one per date winning |
| CompositeSignals.MayerVote | src/lib/indicators/cycle-composite.ts:237-241 | a vote exists exactly over a defined non-zero SMA, and it is the vote of the Mayer multiple indicator's own signal |
| CompositeSignals.MayerVotes | src/lib/indicators/cycle-composite.ts:232-241 | one vote or none per day, each -1, 0 or +1 |
| CompositeSignals.MayerSignals | src/lib/indicators/cycle-composite.ts:231-244 | the map of each day's Mayer vote over the 200-day SMA |
| CompositeSignals.WmaVote | src/lib/indicators/cycle-composite.ts:289-292 | the vote is -1, 0 or +1, and over a positive WMA it is the vote of the 200-week indicator's own signal |
| CompositeSignals.Advance | src/lib/indicators/cycle-composite.ts:278-285 | the pointer moves past exactly the run of weekly dates on or before the day |
| CompositeSignals.AdvanceWeeks | src/lib/indicators/cycle-composite.ts:278-285 | the inner loop stops where `Advance` does and keeps the latest WMA seen |
| CompositeSignals.PointerBoundary | src/lib/indicators/cycle-composite.ts:274-285 | with days in date order, after day i the pointer sits just past the weekly dates up to day i's date |
| CompositeSignals.LatestWmaIsLatest | src/lib/indicators/cycle-composite.ts:282-287 | the WMA in force is none exactly when no weekly date passed has one, and otherwise the latest such date's |
| CompositeSignals.WmaVotes | src/lib/indicators/cycle-composite.ts:276-293 | one vote or none per day, each -1, 0 or +1 |
| CompositeSignals.WmaSignals | src/lib/indicators/cycle-composite.ts:246-295 | the weekly resample, its 200-week SMA by date and the day loop with its pointer give the map of each day's vote against the WMA in force |
| CompositeSignals.CostInForce | src/lib/indicators/cycle-composite.ts:312-316 | the cost carried to a day is non-negative |
| CompositeSignals.CostInForceIsLatest | src/lib/indicators/cycle-composite.ts:312-316 | the carried cost is positive exactly once some day so far had a positive cost, and is the latest such day's |
| CompositeSignals.MiningVote | src/lib/indicators/cycle-composite.ts:318-321 | over a positive cost, the vote of the mining-cost indicator's own signal |
| CompositeSignals.MiningVotes | src/lib/indicators/cycle-composite.ts:313-322 | one vote or none per day, each -1, 0 or +1 |
| CompositeSignals.MiningSignals | src/lib/indicators/cycle-composite.ts:297-324 | no samples give no votes; otherwise the loop carrying the latest positive cost gives the map of each day's ratio vote |
| CompositeSignals.StableVote | src/lib/indicators/cycle-composite.ts:336-339 | over a positive base, the vote of the stablecoin indicator's own signal for the 30-point change |
| CompositeSignals.StableVotes | src/lib/indicators/cycle-composite.ts:334-340 | a point has a vote exactly from index 30 on where the supply 30 points back is positive, each -1, 0 or +1 |
| CompositeSignals.StablecoinSignals | src/lib/indicators/cycle-composite.ts:326-342 | the map of each point's supply-momentum vote, empty below 31 points |
| CompositeSignals.LongsVote | src/lib/indicators/cycle-composite.ts:373-376 | over a positive base, the vote of the longs indicator's own signal for the 30-point change |
| CompositeSignals.LongsVotes | src/lib/indicators/cycle-composite.ts:370-377 | a point has a vote exactly from index 30 on where the longs 30 points back are positive, each -1, 0 or +1 |
| CompositeSignals.LongsSignals | src/lib/indicators/cycle-composite.ts:364-379 | the map of each point's longs-momentum vote, empty below 31 points |
| CompositeSignals.GapVote | src/lib/indicators/cycle-composite.ts:356-359 | over a positive Binance close, the vote of the gap indicator's own signal for the premium |
| CompositeSignals.GapVotes | src/lib/indicators/cycle-composite.ts:353-360 | a Binance day has a vote exactly when Coinbase has a non-zero close that day and the Binance close is positive |
| CompositeSignals.GapSignals | src/lib/indicators/cycle-composite.ts:344-362 | an empty exchange series gives no votes; otherwise the map of each Binance day's premium vote |
| CompositeSignals.DvolVote | src/lib/indicators/cycle-composite.ts:386-388 | +1 exactly above 60, -1 exactly below 40, 0 in between |
| CompositeSignals.DvolVotes | src/lib/indicators/cycle-composite.ts:385-389 | every DVOL point has a vote, each -1, 0 or +1 |
| CompositeSignals.DvolSignals | src/lib/indicators/cycle-composite.ts:381-391 | the map of each DVOL point's vote |
| CompositeSignals.PcrVote | src/lib/indicators/cycle-composite.ts:102-103 | the vote of the options indicator's own put/call signal |
| CompositeSignals.WithLivePcr | src/lib/indicators/cycle-composite.ts:100-105 | with a live ratio and DVOL history, the latest DVOL date takes the put/call vote and no other date changes; otherwise the map is unchanged |
| CompositeSignals.AllMaps | src/lib/indicators/cycle-composite.ts:107-115 | seven maps, in the composite's order |
| CompositeSignals.AllVoteMaps | src/lib/indicators/cycle-composite.ts:90-115 | every one of the seven maps holds only votes -1, 0 and +1 |
| CompositeSignals.AllSignals | src/lib/indicators/cycle-composite.ts:90-115 | computes the seven maps, the DVOL one with the live override |
| CycleComposite.Tally | src/lib/indicators/cycle-composite.ts:120-128 | over vote maps, the count of voting maps is at most the number of maps, the score lies between minus and plus the count, and the count is positive exactly when some map votes on the date |
| CycleComposite.Kept | src/lib/indicators/cycle-composite.ts:119-137 | the days kept are indices of days already seen |
| CycleComposite.MergedIsKept | src/lib/indicators/cycle-composite.ts:119-137 | the records are those of exactly the days some map votes on, in strictly increasing day order, each with that day's date, close, score and count |
| CycleComposite.KeptIncreasing | src/lib/indicators/cycle-composite.ts:119-137 | the days that get a record strictly increase |
| CycleComposite.KeptMembers | src/lib/indicators/cycle-composite.ts:119-137 | a day among the first `n` gets a record exactly when at least one map holds a vote for its date |
| CycleComposite.MergedBounds | src/lib/indicators/cycle-composite.ts:119-137 | every record has between one and as many votes as there are maps, and a score within its count |
| CycleComposite.Merge | src/lib/indicators/cycle-composite.ts:118-137 | the nested merge loop yields the merged records |
| CycleComposite.CompositeSignal | src/lib/indicators/cycle-composite.ts:172-177 | buy exactly at a score of at least +2, sell exactly at most -2 |
| CycleComposite.CompositeColor | src/lib/indicators/cycle-composite.ts:395-403 | the green shades are exactly the buy scores, the red and deep red exactly the sell scores, gray exactly 0, and the shade is the score clamped to [-3, 3] |
| CycleComposite.LastHalvingFacts | src/lib/indicators/cycle-composite.ts:410-417 | the last halving on or before the date is absent exactly when none is, and otherwise is one after which no listed halving is on or before the date |
| CycleComposite.CyclePositionOf | src/lib/indicators/cycle-composite.ts:407-424 | pre-halving exactly when no halving is on or before the date; otherwise cycle one plus the number of halvings passed, since the last of them |
| CycleComposite.Markers | src/lib/indicators/cycle-composite.ts:159-165 | markers are numbered 1, 2, ... in order |
| CycleComposite.MarkersExact | src/lib/indicators/cycle-composite.ts:159-165 | every marker is a listed halving within the chart's first and last dates, and every such halving has a marker |
| CycleComposite.IndexOf | src/lib/indicators/cycle-composite.ts:433-445 | a date has an index exactly when it is a BTC date, and it is the last row with that date |
| CycleComposite.CurrentRow | src/lib/indicators/cycle-composite.ts:466-481 | the closing row is a current-state row whose type is the composite signal of the latest score |
| CycleComposite.CompositeBacktest | src/lib/indicators/cycle-composite.ts:428-484 | the hand-written cooldown loop is the engine scan of the extreme trigger with cooldown 60, then the current-state row |
| CycleComposite.CompositeRows | src/lib/indicators/cycle-composite.ts:436-481 | one row per fired record plus the current row last; fired records are at least 60 apart, each scoring at least +2 (buy) or at most -2 (sell) and dated on a BTC day |
| CycleComposite.Calculate | src/lib/indicators/cycle-composite.ts:61-209 | no record gives the empty result; otherwise the latest record's score, count (1 to 7) and signal, its cycle position (before the first halving exactly when no halving precedes its date, else cycle 1 + the halvings on or before it, since the last of them), one price point and one coloured bar per record, the halving markers within the records' dates, and the backtest rows |
| CycleComposite.Present | src/lib/indicators/cycle-composite.ts:143-208 | for a non-empty composite, the latest record's score, count and signal, its cycle position (before the first halving exactly when no halving precedes its date, else cycle 1 + the halvings on or before it, since the last of them), one price point and one coloured bar per record, the halving markers within the records' dates, and the backtest rows |
| CycleComposite.LatestAvailable | src/lib/indicators/cycle-composite.ts:119-137 | over the seven vote maps, the latest record has between one and seven votes |
| ComputeMetrics.OiZScore | src/lib/altcoins/compute-metrics.ts:7-15 | 0 for fewer than five values or a zero standard deviation; otherwise the score times the deviation is the last value's distance from the mean |
| ComputeMetrics.DeviationFacts | src/lib/altcoins/compute-metrics.ts:10-11 | every squared deviation is non-negative, and zero exactly at a value equal to the mean |
| ComputeMetrics.SumNonNegative | src/lib/altcoins/compute-metrics.ts:10-11 | a sum of non-negative terms is non-negative, and zero exactly when every term is |
| ComputeMetrics.VarianceNonNegative | src/lib/altcoins/compute-metrics.ts:10-12 | the population variance is never negative, so the square root is always taken of a non-negative number |
| ComputeMetrics.VarianceZero | src/lib/altcoins/compute-metrics.ts:10-13 | the variance is 0 exactly when every value equals the mean |
| ComputeMetrics.ConstantSeries | src/lib/altcoins/compute-metrics.ts:9-11 | a constant series has its value as mean and variance 0 |
| ComputeMetrics.ConstantSeriesScoresZero | src/lib/altcoins/compute-metrics.ts:8-14 | a constant series scores 0, whatever the square root returns |
| ComputeMetrics.ZScoreSign | src/lib/altcoins/compute-metrics.ts:8-14 | with a square root non-negative on non-negative and positive on positive numbers, the score is positive exactly when the last value is above the mean and negative exactly when below |
| ComputeMetrics.Clamp | src/lib/altcoins/compute-metrics.ts:48-50 | with lo at most hi the result lies in [lo, hi], is the value inside it and the nearer bound outside; with hi below lo it is hi |
| ComputeMetrics.ClampMonotone | src/lib/altcoins/compute-metrics.ts:48-50 | clamping is monotone |
| ComputeMetrics.OiComponent | src/lib/altcoins/compute-metrics.ts:22-23 | the open-interest part lies in [0, 10], is 0 up to a z-score of -1, 10 from 2 on and strictly between in between |
| ComputeMetrics.OiComponentIncreasing | src/lib/altcoins/compute-metrics.ts:22-23 | the open-interest part rises strictly between z-scores -1 and 2 |
| ComputeMetrics.RsComponent | src/lib/altcoins/compute-metrics.ts:25-26 | the strength part lies in [0, 10], is 0 for non-positive strength and 10 from 2 on |
| ComputeMetrics.FundingComponent | src/lib/altcoins/compute-metrics.ts:28-30 | the funding part lies in [0, 10], is 10 at zero funding and 0 from an annual rate of 100% either way |
| ComputeMetrics.MomentumComponent | src/lib/altcoins/compute-metrics.ts:32-34 | the momentum part lies in [0, 10], is 0 up to a 7-day change of -10% and 10 from +20% |
| ComputeMetrics.BreakoutScore | src/lib/altcoins/compute-metrics.ts:21-46 | the weighted score always lies in [0.5, 9.5] |
| ComputeMetrics.BreakoutScoreMonotone | src/lib/altcoins/compute-metrics.ts:21-46 | the score never falls when the z-score, strength or 7-day change rise or the funding rate moves towards zero |
| ComputeMetrics.ComponentWeights | src/lib/altcoins/compute-metrics.ts:39-45 | moving one input from worst to best moves the score by 3, 2.5, 2 and 1.5 points; the all-worst token scores 0.5 and the all-best 9.5 |
| AltcoinFetch.CeilingCount | src/lib/altcoins/fetch-altcoin-data.ts:97-103 | a count with `(count - 1) * n < len <= count * n` is the ceiling of len over n |
| AltcoinFetch.Chunk | src/lib/altcoins/fetch-altcoin-data.ts:97-103 | the slices joined give the array back, every slice but the last has n elements, the last is non-empty, and there are ceil(len / n) of them |
| AltcoinFetch.AggPerps | src/lib/altcoins/fetch-altcoin-data.ts:150-156 | the kept markets are exactly the aggregated USDT perpetuals, in their order |
| AltcoinFetch.BaseSymbolPairs | src/lib/altcoins/fetch-altcoin-data.ts:159-162 | one base-asset and symbol pair per kept market, in order |
| AltcoinFetch.BtcChangeIsLast | src/lib/altcoins/fetch-altcoin-data.ts:141-147 | with no bitcoin market the change is 0; otherwise it is that of the last bitcoin market, 0 when its change is null |
| AltcoinFetch.GeckoSymbolPairs | src/lib/altcoins/fetch-altcoin-data.ts:140-143 | one upper-cased symbol and market pair per CoinGecko market |
| AltcoinFetch.ScanGecko | src/lib/altcoins/fetch-altcoin-data.ts:139-147 | the loop fills the symbol table, the last market per symbol winning, and keeps the change of the last bitcoin market |
| AltcoinFetch.Candidates | src/lib/altcoins/fetch-altcoin-data.ts:165-170 | the candidates are exactly the markets other than bitcoin whose upper-cased symbol has a Coinalyze market |
| AltcoinFetch.SelectedAreCandidates | src/lib/altcoins/fetch-altcoin-data.ts:165-172 | at most 40 tokens are selected, each a candidate, and all of them when there are at most 40 |
| AltcoinFetch.SelectedByVolume | src/lib/altcoins/fetch-altcoin-data.ts:171 | the selected tokens come busiest first, a null volume counting as 0 |
| AltcoinFetch.SelectedAreBusiest | src/lib/altcoins/fetch-altcoin-data.ts:171-172 | every candidate left out is at most as busy as every token selected |
| AltcoinFetch.CoinalyzeSymbols | src/lib/altcoins/fetch-altcoin-data.ts:174-177 | no more symbols than selected tokens, each non-empty and a Coinalyze symbol |
| AltcoinFetch.SelectMarkets | src/lib/altcoins/fetch-altcoin-data.ts:131-181 | a failed market list counts as empty; the base table is last-wins over the kept perpetuals; the selection is the 40 busiest candidates; the batches joined are their symbols, each batch of 1 to 20 |
| AltcoinFetch.EntriesAppend | src/lib/altcoins/fetch-altcoin-data.ts:213-244 | the entries of two item lists are those of each, in order |
| AltcoinFetch.LastWinsAppend | src/lib/altcoins/fetch-altcoin-data.ts:216 | setting one more entry is the update of the table with it |
| AltcoinFetch.SetItems | src/lib/altcoins/fetch-altcoin-data.ts:216 | the inner loop sets every item's entry, the last per symbol winning |
| AltcoinFetch.FillTable | src/lib/altcoins/fetch-altcoin-data.ts:213-244 | a table is filled from every batch that arrived, failed batches skipped, the last item per symbol winning |
| AltcoinFetch.GetOr | src/lib/altcoins/fetch-altcoin-data.ts:261-274 | a present key reads its value, a missing key the fallback |
| AltcoinFetch.OiChange24h | src/lib/altcoins/fetch-altcoin-data.ts:269-271 | 0 without two points or a positive previous one; otherwise the percentage change of the last over the previous |
| AltcoinFetch.FundingApr | src/lib/altcoins/fetch-altcoin-data.ts:275 | the rate times 3 * 365 * 100, positive exactly when the rate is |
| AltcoinFetch.RelativeStrength | src/lib/altcoins/fetch-altcoin-data.ts:283-284 | 0 when bitcoin did not move; otherwise the strength times bitcoin's change is the token's change |
| AltcoinFetch.Volume24h | src/lib/altcoins/fetch-altcoin-data.ts:278-281 | a non-zero futures volume in dollars at the price, else CoinGecko's volume |
| AltcoinFetch.TokenOf | src/lib/altcoins/fetch-altcoin-data.ts:249-303 | the row has the upper-cased symbol, open interest at the price, the z-score of its history and the breakout score of its own fields |
| AltcoinFetch.AssembleTokens | src/lib/altcoins/fetch-altcoin-data.ts:247-304 | the assembly loop gives one row per selected market with a Coinalyze symbol, in order |
| AltcoinFetch.AssembleScores | src/lib/altcoins/fetch-altcoin-data.ts:247-304 | no more rows than selected markets, each scored from its own fields |
| AltcoinFetch.AssembleOrigin | src/lib/altcoins/fetch-altcoin-data.ts:248-251 | every row comes from a selected market with a Coinalyze symbol |
| AltcoinFetch.AssembleComplete | src/lib/altcoins/fetch-altcoin-data.ts:248-303 | every selected market with a Coinalyze symbol gets its row |
| AltcoinFetch.Assemble | src/lib/altcoins/fetch-altcoin-data.ts:212-306 | the four tables filled from the answers, the rows, and the ranking by score, with bitcoin's change passed on |
| AltcoinFetch.RankedFacts | src/lib/altcoins/fetch-altcoin-data.ts:306 | the ranked rows are a permutation of the assembled ones, highest score first, each scored from its own fields within [0.5, 9.5] |
| AltcoinFetch.RankedRowsHold | src/lib/altcoins/fetch-altcoin-data.ts:165-306 | the ranked rows number at most 40, come highest score first and are scored from their own fields within [0.5, 9.5] |
| AltcoinFetch.Ask | src/lib/altcoins/fetch-altcoin-data.ts:192-210 | one answer per batch, each the answer to that batch |
| AltcoinFetch.FetchAllAltcoinData | src/lib/altcoins/fetch-altcoin-data.ts:131-313 | the rows are at most 40, ranked by a breakout score computed from their own fields, and bitcoin's change is that of the last bitcoin market |
| KoreanFetch.BaseOf | src/lib/korean/fetch-korean-data.ts:203 | on a won market code the base symbol is the code after "KRW-" |
| KoreanFetch.KrwMarkets | src/lib/korean/fetch-korean-data.ts:200-204 | the kept markets are exactly the won markets whose base symbol the table maps to a non-empty id, in Upbit's order |
| KoreanFetch.MarketCodes | src/lib/korean/fetch-korean-data.ts:206 | one code per kept market, in order |
| KoreanFetch.TickerPairs | src/lib/korean/fetch-korean-data.ts:213-216 | one base-symbol and ticker pair per ticker |
| KoreanFetch.NamePairs | src/lib/korean/fetch-korean-data.ts:219-221 | one base-symbol and English-name pair per kept market |
| KoreanFetch.GeckoPairs | src/lib/korean/fetch-korean-data.ts:224-226 | one upper-cased symbol and market pair per CoinGecko market |
| KoreanFetch.ImpliedKrwUsd | src/lib/korean/fetch-korean-data.ts:233 | with a positive BTC dollar price the rate times it is BTC's won price; otherwise the 1450 fallback |
| KoreanFetch.BtcKimchiPremium | src/lib/korean/fetch-korean-data.ts:236-240 | 0 without a BTC dollar price; otherwise the premium plus 100, times 1450, is 100 times the implied rate |
| KoreanFetch.BtcPremiumSign | src/lib/korean/fetch-korean-data.ts:236-240 | BTC's premium is positive exactly when the implied rate is above 1450, and 0 exactly when equal |
| KoreanFetch.KimchiPremium | src/lib/korean/fetch-korean-data.ts:257-260 | 0 unless the token's dollar price and both BTC prices are positive; otherwise the premium plus 100, times the implied rate, is 100 times the token's won over dollar price |
| KoreanFetch.KimchiPremiumSign | src/lib/korean/fetch-korean-data.ts:255-260 | with the three prices positive, the premium is positive exactly when the token's won over dollar price is above BTC's, and 0 exactly when equal |
| KoreanFetch.ScaledComparison | src/lib/korean/fetch-korean-data.ts:257-260 | from s * d == 100 * x with d positive, s exceeds 100 exactly when x exceeds d |
| KoreanFetch.VolumeToMcap | src/lib/korean/fetch-korean-data.ts:269-271 | 0 without a positive market cap; with one, undefined exactly at a zero rate, else the ratio times rate and cap is the won volume |
| KoreanFetch.TokenOf | src/lib/korean/fetch-korean-data.ts:252-285 | the row has the symbol, both prices, the Upbit volume (0 when null), the Bithumb volume (0 when absent), their sum, the Upbit name or the symbol, the premium and the volume-to-cap ratio |
| KoreanFetch.AssembleTokens | src/lib/korean/fetch-korean-data.ts:243-286 | the assembly loop gives one row per listed symbol, in the table's order |
| KoreanFetch.AssembleSound | src/lib/korean/fetch-korean-data.ts:245-250 | every row is of a table symbol other than BTC with both an Upbit ticker and a CoinGecko market |
| KoreanFetch.AssembleComplete | src/lib/korean/fetch-korean-data.ts:245-285 | every such symbol gets its row |
| KoreanFetch.RankedByVolume | src/lib/korean/fetch-korean-data.ts:289 | the ranked rows are a permutation of the assembled ones, busiest in won first |
| KoreanFetch.Symbols | src/lib/korean/fetch-korean-data.ts:245 | the table's symbols in declaration order |
| KoreanFetch.SelectMarkets | src/lib/korean/fetch-korean-data.ts:199-206 | the kept won markets and their codes |
| KoreanFetch.Assemble | src/lib/korean/fetch-korean-data.ts:211-296 | the last-wins lookups, BTC's won and dollar prices (0 when absent), the rows ranked by volume, the implied rate and BTC's premium |
| KoreanFetch.RankedRowsHold | src/lib/korean/fetch-korean-data.ts:242-289 | the ranked rows come busiest first, none is BTC, each is a table symbol, and each total is its two volumes added |
| KoreanFetch.FetchKoreanData | src/lib/korean/fetch-korean-data.ts:189-297 | the screener's rows come busiest first, none is BTC, each is a symbol of the table, and each total is its two exchange volumes added |

## Left out

- HTTP requests, retries, rate-limit sleeps, caching tags and `Promise.all`/`allSettled`: each fetched body is a parameter, and a request that `allSettled` reports as rejected arrives as an empty list (or `None` for a single value), as the source substitutes.
- The clock: `lastUpdated`, `Date.now()` in request windows, and the DVOL request's start time are not modelled.
- Calendar arithmetic: converting Unix time or milliseconds to a `YYYY-MM-DD` date, a date's year, and "the date 30 days later" are function parameters; the composite's "days since the last halving" is not modelled (the cycle number and the halving are).
- `Math.sqrt` is a parameter of the z-score; the properties about it hold for any function, or any non-negative function positive on positive inputs.
- Floating point: all numbers are exact reals, so rounding, `toFixed`, `Math.round` and overflow to Infinity are not modelled.
- Display: `formatCurrency`, `formatPercent`, `formatDate`, labels, descriptions, colours as hex strings and the `"?"`/`"—"` placeholders are not modelled; a row holds the numbers they format, and `"?"` is `None`.
- Chart lines of the other indicators: the 200-week price and WMA lines are modelled, the WMA line keeping only the weeks where the average is defined (`MovingAverage.DefinedLine`). The average lines of the other indicators apply the same filter, and their raw lines copy a series: the options indicator's DVOL and 30-day SMA, the stablecoin supply and its 90-day SMA, the gap and its 7-day SMA, and the Bitfinex longs and their 30-day SMA. These are not part of those indicators' results in the model, and neither is the mining cost line. The mining BTC line, the realized-price lines, the composite's price line and its bars are modelled.
- The 200-week indicator's extra current row (src/lib/indicators/two-hundred-wma.ts:139-156) is not modelled: it depends on the clock's current year and on parsing the year back out of a formatted date.
- The Bithumb parsing of `fetchBithumbAll` (`parseFloat(...) || 0`, the status check, skipping the `date` key) is a parameter: its already parsed map.
- JavaScript objects used as tables: looking a symbol up in `UPBIT_TO_GECKO` also finds inherited prototype keys (such as `constructor`), and `Map` lookups compare strings; the model's tables hold only the listed keys.
- `toUpperCase` is modelled on ASCII letters only.
- The altcoin screener's `geckoBySymbol` table is built (`AltcoinFetch.ScanGecko`) but nothing reads it, as in the source.
- Division by zero: where the source would divide by zero and carry Infinity or NaN on, the model yields `None` (the Mayer multiple over a zero SMA, `lookAhead` over a zero base close, and the Korean volume-to-cap ratio at a zero implied rate); `CompositeSignals.WmaVote` and `TwoHundredWma` model the comparisons of ±Infinity and NaN explicitly.
- Crashes on empty input: where the source reads a property of the missing last element of an empty series, the model returns `None`. This covers the 200-week indicator, mining cost and realized price with no BTC prices. It also covers the Mayer multiple with no days, whose `formatNumber(undefined)` fails (src/lib/indicators/mayer-multiple.ts:108, src/lib/utils/format.ts:28-32), and the stablecoin supply with no points, whose `formatSupply(undefined)` fails (src/lib/indicators/stablecoin-supply.ts:84, :18-23). The model then reports a neutral signal where the source throws.
- ExchangeFetch.FromCandle: a time field that is not a whole number of seconds is floored, while the source copies it as given; the two agree on whole-second times.
- The Korean screener's CoinGecko `current_price` is taken to be a number; a `null` price is not modelled.
- DeribitFetch.AggregateIvPositive: states that the aggregate IV is positive exactly when some option is weighed, not that it lies between the smallest and largest weighed IV.
- MiningCostIndicator.Calculate: the backtest's future close is looked up through the last index of a date (a `Map` built from every row), while the gap indicator's `findIndex` takes the first; both are modelled as written.
- CycleComposite.CompositeBacktest: requires a non-empty composite, which the source guarantees by returning the empty result first; the source would fail reading the latest record otherwise.
