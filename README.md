# react-crypto-stats: a verified model of the market data core

This project models, in Dafny, the logic behind a React cryptocurrency
dashboard, leaving out the rendering:

- **Demo data** (`demo_data.dfy`): the twenty seed coins; the generator of twenty synthetic coins for every further page; the fixed market summary.
- **Demo data service** (`demo_data_service.dfy`): a class over the shared seed array.
  - Its operations: live pages with price jitter, the case-insensitive search, coin details with the "Coin not found" rejection, the trending list, the market summary jitter and the price ticker.
  - The trending list sorts the shared array in place. Every later page 1, search and lookup sees that order, and the model keeps that behaviour.
- **Application shell** (`app.dfy`):
  - The transform of market API rows into coin records.
  - A `Session` class holding the page's six state cells and the fetch, load-more and refresh handlers.
  - Each handler receives the outcome of its network request as a parameter.
- **Optimized market grid** (`crypto_grid.dfy`): the favourite toggle, the filtered and sorted list the grid renders, and the grid's own state cells.
- **Performance monitor** (`performance.dfy`):
  - A class over three maps that are updated in place, together with the statistics of a list of durations.
  - A summary and a report built from those maps.
- **Landing statistics**:
  - `hero.dfy`: total market cap, first-maximum top gainer, average change, trend and value tier.
  - `hero_new.dfy`: the compact variant of the same statistics, with its `'BTC'` top-gainer fallback.
- **Backdrop grid** (`grid_motion.dfy`): the 28 items, the 4 × 7 cell indexing, the price and change formatting branches, and the row motion.

Shared pieces:

- `coins.dfy` holds the coin record, the search predicate, `filter` and the stable comparator sort.
- `text.dfy` holds ASCII case mapping, substring search, decimal rendering and lexicographic order.
- `arith.dfy` holds small real-arithmetic facts.
- `wrappers.dfy` holds `Option` and `Result`.

JavaScript's `null`, `undefined` and `NaN` numbers are all `None` of `Num`. A missing number used as `x || 0` is `OrZero(x)`. Every `Math.random()` is an injected draw in [0, 1).

## Model

| member | source | states |
|---|---|---|
| DemoData.SeedCoins | src/data/demoData.js:28-369 | the seed list has exactly twenty records |
| DemoData.SeedRanksInOrder | src/data/demoData.js:28-369 | seed i has `cmc_rank` i + 1, so ranks run 1..20 in list order |
| DemoData.SeedIdsDistinct | src/data/demoData.js:28-369 | no two seeds share an id |
| DemoData.SeedIdsNotSynthetic | src/data/demoData.js:28-369 | no seed id starts with `demo-coin-` |
| DemoData.SeedsFullyQuoted | src/data/demoData.js:28-369 | every seed has every figure, with a positive price |
| DemoData.GenerateMoreDemoData | src/data/demoData.js:373-400 | a generated page has twenty records ranked 20(page-1)+1 .. 20·page in order |
| DemoData.PageRanksDisjoint | src/data/demoData.js:374-377 | two generated records share a rank only if they are the same record of the same page |
| DemoData.SyntheticCoin | src/data/demoData.js:378-397 | one generated record: rank, prefixed id, name, symbol and image, and the six random figures from consecutive draws |
| DemoData.SyntheticNaming | src/data/demoData.js:383-385 | id, name and symbol are `demo-coin-`, `Demo Coin ` and `DC` followed by the rank |
| DemoData.SyntheticIdsDistinct | src/data/demoData.js:374-386 | synthetic ids are distinct across all records of all pages |
| DemoData.SyntheticIdsNotSeeds | src/data/demoData.js:383 | no synthetic id equals a seed id |
| DemoData.ScaledDrawBounds | src/data/demoData.js:393-394 | `price * Math.random() * c` lies in [0, price·c) |
| DemoData.SyntheticCoinWithinRanges | src/data/demoData.js:378-397 | each of the six figures of one record lies in its generator range |
| DemoData.SyntheticBounds | src/data/demoData.js:376-399 | every record of a page lies within the generator ranges: price in [0.01, 100.01), 24h change in [-10, 10), 7d change in [-15, 15), market cap below price·1e9, volume below price·1e7, supply below 1e9 |
| DataService.JitterFactor | src/services/demoDataService.js:61 | `1 + (Math.random() - 0.5) * width` for one draw |
| DataService.LiveDraws | src/services/demoDataService.js:54-67 | the draws a page consumes: two per seed on page 1, six per generated record otherwise |
| DataService.ScaleWithin | src/services/demoDataService.js:61 | scaling a positive price by a factor in [lo, hi) lands in [price·lo, price·hi) |
| DataService.ScaleNum | src/services/demoDataService.js:61 | a scaled figure is present exactly when the original is |
| DataService.ShiftNum | src/services/demoDataService.js:62 | a shifted figure is present exactly when the original is |
| DataService.JitterCoin | src/services/demoDataService.js:56-65 | a page-1 record differs from its seed only in price and 24h change |
| DataService.PageOneJitterBounds | src/services/demoDataService.js:61-62 | the jittered price is within 1% of the seed's; the change is within 0.25 points |
| DataService.JitterSeeds | src/services/demoDataService.js:56 | page 1 has one record per seed |
| DataService.LiveData | src/services/demoDataService.js:39-77 | `hasMore` holds iff page < 5, `totalPages` is 5, and any page other than 1 is the generator's page |
| DataService.PageOneFollowsSeeds | src/services/demoDataService.js:54-65 | page-1 record i is seed i with only its price (±1%) and 24h change (±0.25) moved |
| DataService.SearchSeeds | src/services/demoDataService.js:133-136 | every result is a seed whose lower-cased name or symbol contains the lower-cased query |
| DataService.SearchExact | src/services/demoDataService.js:133-136 | a seed is returned exactly when it matches, as often as it occurs |
| DataService.SearchKeepsOrder | src/services/demoDataService.js:133 | the search keeps the seed order |
| DataService.EmptyQueryReturnsAll | src/services/demoDataService.js:133-136 | the empty query returns every seed, in order |
| DataService.FirstMatchAt | src/services/demoDataService.js:154 | what `find` returns: the first record with the id |
| DataService.FirstWithId | src/services/demoDataService.js:154 | `find` yields the first index with the id, or none when no record has it |
| DataService.DetailsOf | src/services/demoDataService.js:156-166 | the coin with the description, website, GitHub and social links built from its name, id and symbol |
| DataService.CoinDetailsOf | src/services/demoDataService.js:144-172 | rejects with "Coin not found" iff no seed has the id; otherwise it is the first such seed, with website `https://demo-<id>.com` and GitHub `https://github.com/demo-<id>`, and every other field (description, Twitter, Telegram, Reddit) built from that coin |
| DataService.TopTrending | src/services/demoDataService.js:114 | `slice(0, 10)`: a prefix of at most ten, all of the list when shorter |
| DataService.TrendingIsTopTen | src/services/demoDataService.js:112-114 | the trending list is drawn from the seeds and non-increasing in 24h change; no seed it leaves out beats one it lists |
| DataService.MarketSummaryNow | src/services/demoDataService.js:91-95 | only the total market cap and volume differ from the demo summary |
| DataService.MarketSummaryBounds | src/services/demoDataService.js:93-94 | the market cap moves by less than 0.5%, the volume by less than 2.5% |
| DataService.TickCoin | src/services/demoDataService.js:177-185 | a tick changes only the price, and keeps it present |
| DataService.Tick | src/services/demoDataService.js:177 | a tick produces one record per seed |
| DataService.TickBounds | src/services/demoDataService.js:182 | a ticked price is within 0.05% of the seed price; the other fields are unchanged |
| DataService.DemoDataService.constructor | src/services/demoDataService.js:24-35 | the service's array holds the seed list |
| DataService.DemoDataService.GetLiveData | src/services/demoDataService.js:39-77 | the page over the array's current order, page 1 when none is given; page 1 keeps the ids in array order |
| DataService.DemoDataService.SearchCoins | src/services/demoDataService.js:123-140 | the search over the current array; the empty query returns the whole array |
| DataService.DemoDataService.GetCoinDetails | src/services/demoDataService.js:144-172 | the lookup over the current array |
| DataService.DemoDataService.GetTrendingCoins | src/services/demoDataService.js:102-119 | the array itself becomes its stable sort by 24h change, highest first; the result is its first ten |
| DataService.DemoDataService.PriceUpdate | src/services/demoDataService.js:175-191 | one tick of the array, leaving the array unchanged, with ids in order and every price present |
| Coins.OrZero | src/components/CryptoGrid_optimized.js:177 | the `or 0` fallback: a missing figure counts as 0 |
| Coins.MatchesSearch | src/components/CryptoGrid_optimized.js:164-165 | the lower-cased name or the lower-cased symbol includes the lower-cased term |
| Coins.EmptyTermMatchesAll | src/components/CryptoGrid_optimized.js:164-165 | the empty search term matches every coin |
| Coins.Filter | src/components/CryptoGrid_optimized.js:163 | `filter` keeps only accepted records taken from the input |
| Coins.FilterMultiset | src/components/CryptoGrid_optimized.js:163-172 | a record is kept as often as it occurs if accepted, never otherwise |
| Coins.FilterAppend | src/components/CryptoGrid_optimized.js:163 | filtering keeps input order |
| Coins.FilterKeepsAll | src/components/CryptoGrid_optimized.js:163 | a filter accepting everything returns its input |
| Coins.FilterCongruent | src/components/CryptoGrid_optimized.js:163 | filters that agree on the input select the same list |
| Coins.KeyValue | src/components/CryptoGrid_optimized.js:176-183 | the figure each numeric option compares, missing ones as 0 |
| Coins.Before | src/components/CryptoGrid_optimized.js:174-189 | the comparator returns a negative number: the larger figure first, the smaller name first, never for any other option |
| Coins.SortKeyOf | src/components/CryptoGrid_optimized.js:175-188 | each of `market_cap`, `price`, `change_24h`, `volume` and `name` selects its own comparator, and only that string does; any other string selects the comparator that returns 0 |
| Coins.BeforeIsStrictWeakOrder | src/components/CryptoGrid_optimized.js:174-189 | each comparator is asymmetric and its "not before" is transitive, so the sort is well defined |
| Coins.Insert | src/components/CryptoGrid_optimized.js:174 | insertion adds exactly one element |
| Coins.SortBy | src/components/CryptoGrid_optimized.js:174-189 | the sort is a permutation of its input |
| Coins.InsertSorted | src/components/CryptoGrid_optimized.js:174-189 | inserting into a sorted list keeps it sorted |
| Coins.SortBySorted | src/components/CryptoGrid_optimized.js:174-189 | no element of the sorted list is strictly before one that precedes it |
| Coins.SortByNonIncreasing | src/components/CryptoGrid_optimized.js:176-183 | numeric keys sort highest first, missing counting as 0 |
| Coins.SortByNameAscending | src/components/CryptoGrid_optimized.js:184-185 | names sort ascending |
| Coins.SortByUnorderedKeepsOrder | src/components/CryptoGrid_optimized.js:186-187 | a comparator returning 0 leaves the stable sort's input as it was |
| Coins.InsertKeepsTiedOrder | src/components/CryptoGrid_optimized.js:174-189 | inserting a record keeps the order of any group of pairwise unordered records, the new one landing in front of the group |
| Coins.SortByKeepsTiedOrder | src/components/CryptoGrid_optimized.js:174-189 | the sort keeps the input order of any group of pairwise unordered records |
| Coins.SortByStable | src/components/CryptoGrid_optimized.js:174-189 | stability: the records tied with any given record come out in the order they went in |
| CryptoGrid.Toggle | src/components/CryptoGrid_optimized.js:140-150 | the id is in the new set iff it was not in the old; other ids keep their membership |
| CryptoGrid.ToggleTwice | src/components/CryptoGrid_optimized.js:140-150 | toggling the same id twice restores the set |
| CryptoGrid.Shown | src/components/CryptoGrid_optimized.js:163-172 | the filter callback: the search matches, and the id is a favourite when only favourites are shown |
| CryptoGrid.FilteredRecords | src/components/CryptoGrid_optimized.js:163-172 | the filtered array: the shown records in input order |
| CryptoGrid.FilteredAndSorted | src/components/CryptoGrid_optimized.js:160-190 | missing or empty data gives []; otherwise it is a rearrangement of exactly the filtered records |
| CryptoGrid.RenderedAreShown | src/components/CryptoGrid_optimized.js:163-172 | every rendered record comes from the data and matches the search; under favourites-only, its id is a favourite |
| CryptoGrid.RenderedExactly | src/components/CryptoGrid_optimized.js:160-190 | a record is rendered exactly when it passes the filter, as often as it occurs |
| CryptoGrid.EverythingShownByDefault | src/components/CryptoGrid_optimized.js:135-138 | with the initial search and switch, all data is rendered |
| CryptoGrid.FavoritesIgnoredWhenOff | src/components/CryptoGrid_optimized.js:167-171 | with the switch off, the favourite set does not affect the list |
| CryptoGrid.NumericSortDescending | src/components/CryptoGrid_optimized.js:176-183 | market cap, price, 24h change and volume sort highest first |
| CryptoGrid.NameSortAscending | src/components/CryptoGrid_optimized.js:184-185 | the name option sorts names ascending |
| CryptoGrid.UnknownSortKeepsOrder | src/components/CryptoGrid_optimized.js:186-187 | any other option keeps the filtered order |
| CryptoGrid.GridState.constructor | src/components/CryptoGrid_optimized.js:135-138 | empty search, `market_cap`, no favourites, switch off |
| CryptoGrid.GridState.ToggleFavorite | src/components/CryptoGrid_optimized.js:140-150 | the favourite set is toggled at the id; nothing else changes |
| CryptoGrid.GridState.SetSearchTerm | src/components/CryptoGrid_optimized.js:152-154 | the search term is replaced; nothing else changes |
| CryptoGrid.GridState.SetSortBy | src/components/CryptoGrid_optimized.js:156-158 | the sort option is replaced; nothing else changes |
| CryptoGrid.GridState.ToggleShowOnlyFavorites | src/components/CryptoGrid_optimized.js:281 | the favourites-only switch flips; nothing else changes |
| CryptoGrid.GridState.Rendered | src/components/CryptoGrid_optimized.js:160-190 | the rendered list for the current state: each record matches the search, and under favourites-only each is a favourite |
| App.TruthyRank | src/App.js:49 | `market_cap_rank` is truthy: present and non-zero |
| App.FallbackRank | src/App.js:49 | `(page - 1) * 12 + index + 1` |
| App.FailureMessage | src/App.js:37-71 | the message the catch stores: "Failed to fetch crypto data" for a non-ok response, the thrown message otherwise |
| App.TransformRow | src/App.js:45-59 | id, name and image copied; symbol upper-cased; rank is the API rank when truthy, else (page-1)·12 + index + 1; the API figures become the quote |
| App.TransformRows | src/App.js:45-59 | record i is the transform of row i at index i (so its fallback rank is its position), with the same id |
| App.FallbackRanksDistinct | src/App.js:49 | fallback ranks of rows within a batch of twelve are distinct across pages |
| App.UpperCasingKeepsSearch | src/App.js:48 | upper-casing the symbol does not change what the search finds |
| App.Session.constructor | src/App.js:11-16 | no data, loading, no error, page 1, more data assumed |
| App.Session.BeginFetch | src/App.js:27-31 | only the flag of the fetch's mode is raised |
| App.Session.CompleteFetch | src/App.js:38-76 | rows are appended on load-more, else they replace the list; `hasMoreData` is set iff twelve rows arrived; the error is cleared; a failure only records its message; both flags end lowered |
| App.Session.FetchCryptoData | src/App.js:25-77 | the whole fetch for one outcome |
| App.Session.LoadMoreCryptos | src/App.js:79-83 | the page counter advances even if the fetch fails; received rows extend the list, more data iff twelve rows came, and the error is cleared; a failure keeps the list and the more-data flag and records its message |
| App.Session.Refresh | src/App.js:95-98 | back to page 1; received rows replace the list, more data iff twelve rows came, and the error is cleared; a failure keeps the list and the more-data flag and records its message |
| Performance.Sum | src/utils/performance.js:125 | `durations.reduce((a, b) => a + b, 0)` |
| Performance.MinOf | src/utils/performance.js:129 | `Math.min`: an element no element is below |
| Performance.MaxOf | src/utils/performance.js:130 | `Math.max`: an element no element is above |
| Performance.InsertAscending | src/utils/performance.js:124 | insertion adds exactly one element |
| Performance.SortAscending | src/utils/performance.js:124 | the sorted copy is a permutation of the durations |
| Performance.InsertAscendingSorted | src/utils/performance.js:124 | insertion keeps a list ascending |
| Performance.SortAscendingSorted | src/utils/performance.js:124 | the sorted copy ascends |
| Performance.P95Index | src/utils/performance.js:133 | the 95th-percentile index is inside the list |
| Performance.CalculateStats | src/utils/performance.js:121-135 | null iff there are no durations; the count is the length; min and max are durations |
| Performance.SumBetween | src/utils/performance.js:125 | n values within [lo, hi] sum to within [n·lo, n·hi] |
| Performance.StatsOrdered | src/utils/performance.js:127-134 | min ≤ avg ≤ max; median and p95 are the sorted elements at n/2 and floor(0.95n), both within [min, max], with median ≤ p95 |
| Performance.SortedElementBetween | src/utils/performance.js:124-133 | every element of the sorted copy lies between min and max |
| Performance.MedianNotAfterP95 | src/utils/performance.js:132-133 | the median index floor(n/2) is at most the p95 index floor(0.95n) |
| Performance.Total | src/utils/performance.js:139-140 | the reduce over a map's values returns the sum of its values |
| Performance.AverageBetween | src/utils/performance.js:131 | the average lies between min and max |
| Performance.SumValues | src/utils/performance.js:139-140 | the total of a map's values, which the two reduces compute |
| Performance.SumValuesRemove | src/utils/performance.js:139-140 | a map's total does not depend on the order of summation |
| Performance.SumValuesSwap | src/utils/performance.js:139-140 | taking out either of two keys first gives the same total |
| Performance.SumValuesAtLeastSize | src/utils/performance.js:139-145 | with every count at least 1, the total is at least the number of keys |
| Performance.BeforeDash | src/utils/performance.js:146 | `split('-')[0]` is the prefix up to the first '-' |
| Performance.BeforeDashOfKey | src/utils/performance.js:146 | for an API name without '-', every status counter's key maps back to that name |
| Performance.CallCounts | src/utils/performance.js:140 | the counts are taken over exactly the counter keys |
| Performance.ApiNames | src/utils/performance.js:146 | the set of the keys' prefixes before '-' |
| Performance.ApiNamesNoMoreThanKeys | src/utils/performance.js:146 | there are never more distinct API names than counter keys |
| Performance.TrackedApis | src/utils/performance.js:146 | `apisTracked` is at most the number of counters |
| Performance.PerformanceMonitor.constructor | src/utils/performance.js:5-9 | three empty maps |
| Performance.PerformanceMonitor.RecordMetric | src/utils/performance.js:59-65 | the duration is appended under `type-name`, which is created empty if absent; the other maps are unchanged |
| Performance.PerformanceMonitor.IncrementRenderCount | src/utils/performance.js:68-76 | the count rises by one from 0; a warning iff the previous count is a positive multiple of 10 |
| Performance.PerformanceMonitor.RecordApiCall | src/utils/performance.js:79-90 | the counter under `name-status` gains one call and the duration |
| Performance.PerformanceMonitor.MeasureRender | src/utils/performance.js:12-29 | a callback that returns adds one `render-name` metric and raises this component's render count by one (from 0 if new), every other count unchanged, and slow iff over 16 ms; a callback that throws changes nothing; either way its outcome is passed on |
| Performance.PerformanceMonitor.MeasureApiCall | src/utils/performance.js:32-56 | a success records an `api-name` metric and a success counter, slow iff over 3000 ms; a failure records only an error counter and is passed on |
| Performance.PerformanceMonitor.GetSummary | src/utils/performance.js:138-148 | totals of the render counts and the call counts, component count and API-name count, with componentsTracked ≤ totalRenders and apisTracked ≤ counters ≤ totalApiCalls |
| Performance.PerformanceMonitor.StatsOfKind | src/utils/performance.js:102-115 | a name is listed iff `kind-name` is a metric key, with that metric's statistics |
| Performance.PerformanceMonitor.GetReport | src/utils/performance.js:93-118 | renders and apis by name with their statistics (never null), a copy of the render counts, and the full summary: total renders, components tracked, total API calls and distinct API names |
| Performance.PerformanceMonitor.Clear | src/utils/performance.js:151-155 | all three maps are emptied |
| HeroStats.TotalMarketCap | src/components/Hero.js:27-29 | the left fold adding each market cap, missing ones as 0 |
| HeroStats.TotalMarketCapAppend | src/components/Hero.js:27-29 | the total of a concatenation is the sum of the totals |
| HeroStats.TotalMarketCapCoversEach | src/components/Hero.js:27-29 | with no negative cap, the total is at least every coin's cap |
| HeroStats.TotalMarketCapNonNegative | src/components/Hero.js:27-29 | with no negative cap, the total is not negative |
| HeroStats.TopGainerIndex | src/components/Hero.js:31-34 | the reduce settles on a record of maximal change, the earliest on ties |
| HeroStats.ChangeSum | src/components/Hero.js:36-38 | the left fold adding each 24h change, missing ones as 0 |
| HeroStats.AverageChange | src/components/Hero.js:36-38 | that sum divided by the number of coins |
| HeroStats.ChangeSumAtMost | src/components/Hero.js:36-38 | changes none above hi sum to at most n·hi |
| HeroStats.AverageAtMostTopGainer | src/components/Hero.js:31-38 | the average change never exceeds the top gainer's |
| HeroStats.TrendOf | src/components/Hero.js:43 | the trend is up iff the average is at least 0 |
| HeroStats.TrendFollowsSum | src/components/Hero.js:36-43 | the trend is up iff the changes sum to at least 0 |
| HeroStats.DeriveStats | src/components/Hero.js:25-48 | missing or empty data keeps the previous stats; otherwise the count is the length, the top gainer is one of the records, and the trend follows the average's sign |
| HeroStats.DerivedStatsMeaning | src/components/Hero.js:25-48 | the recomputed stats: a first-maximal top gainer, the average at most its change, the trend as the sign of the sum, the total as the cap sum |
| HeroStats.ValueTier | src/components/Hero.js:120-125 | T iff ≥ 1e12, B iff in [1e9, 1e12), M iff in [1e6, 1e9), no suffix below 1e6 |
| HeroStats.TierMantissa | src/components/Hero_new.js:46-51 | the same tiers here: a B or M value prints a number in [1, 1000), a T value at least 1 |
| HeroNew.Compact | src/components/Hero_new.js:28-32 | the three figures this hero keeps: total value, top gainer and trend |
| HeroNew.DeriveCompactStats | src/components/Hero_new.js:13-34 | missing or empty data keeps the previous stats |
| HeroNew.SameDerivation | src/components/Hero_new.js:13-34 | the compact stats are the full landing stats without the count and the average |
| HeroNew.TopGainerSymbol | src/components/Hero_new.js:93 | never empty: the symbol when present and non-empty, 'BTC' without a top gainer |
| HeroNew.LabelBeforeData | src/components/Hero_new.js:6-10 | before any data, the label reads 'BTC' |
| GridMotion.DefaultItems | src/components/GridMotion.js:11 | 28 placeholders, the i-th being "Item i+1" |
| GridMotion.DefaultItemsDistinct | src/components/GridMotion.js:11 | no two placeholders are equal |
| GridMotion.CombinedItems | src/components/GridMotion.js:10-14 | the first min(28, n) items when any are given, else the 28 placeholders |
| GridMotion.CellOf | src/components/GridMotion.js:91-98 | every index below 28 names a cell of the 4 × 7 grid |
| GridMotion.CellIndexBijection | src/components/GridMotion.js:91-98 | `row*7+col` maps the 28 cells one-to-one onto 0..27 |
| GridMotion.CellContent | src/components/GridMotion.js:98-135 | blank iff the index is past the items; the coin display exactly for a coin with a symbol; the image exactly for a string starting with "http"; otherwise the item as it is |
| GridMotion.EmptyItemsFillEveryCell | src/components/GridMotion.js:10-14 | without items, every cell shows its placeholder text |
| GridMotion.ShortListLeavesTrailingBlanks | src/components/GridMotion.js:97-98 | with fewer than 28 items, exactly the cells past the last item are blank |
| GridMotion.FormatPrice | src/components/GridMotion.js:17-26 | missing gives '$0.00'; above 1 gives 2 decimals; otherwise 6 |
| GridMotion.Truthy | src/components/GridMotion.js:115 | `x || …` keeps a present non-zero number, otherwise falls through |
| GridMotion.CellPrice | src/components/GridMotion.js:115 | the price a coin cell formats: the quote price when truthy |
| GridMotion.CellChange | src/components/GridMotion.js:119-122 | the 24h change a coin cell colours and prints: the quote change when truthy |
| GridMotion.ZeroPriceShownAsMissing | src/components/GridMotion.js:115 | a price of exactly 0 shows as '$0.00' |
| GridMotion.FormatChange | src/components/GridMotion.js:29-41 | missing gives '0.0%', positive; otherwise positive and '+' iff change ≥ 0 |
| GridMotion.PlusOnlyWhenPositive | src/components/GridMotion.js:36-40 | a '+' is shown only on a positive change |
| GridMotion.ChangeClassMatchesText | src/components/GridMotion.js:119-122 | the cell's colour class agrees with formatChange's positivity |
| GridMotion.ZeroChangeHasNoPlus | src/components/GridMotion.js:122 | a change of exactly 0 is falsy: it prints without '+' and counts as positive |
| GridMotion.RowDirection | src/components/GridMotion.js:59 | +1 iff the row index is even, else -1 |
| GridMotion.MoveAmount | src/components/GridMotion.js:59-60 | `((mouseX / innerWidth) * 300 - 150) * direction` |
| GridMotion.OddRowMirrorsEven | src/components/GridMotion.js:59-60 | for one mouse position, an odd row moves by the negation of an even row's amount |
| GridMotion.MoveWithinHalfTravel | src/components/GridMotion.js:53-60 | with the mouse inside the window, rows move at most 150 either way, and not at all at the centre |
| GridMotion.RowDuration | src/components/GridMotion.js:53-64 | the tween lasts between 1.0 and 1.4 seconds |
| Text.ToLower | src/components/CryptoGrid_optimized.js:164 | `toLowerCase` on ASCII, character by character |
| Text.ToUpper | src/App.js:48 | `toUpperCase` on ASCII, character by character |
| Text.Contains | src/components/CryptoGrid_optimized.js:164 | `includes`: the substring is a prefix here or occurs further on |
| Text.ContainsIffOccurs | src/components/CryptoGrid_optimized.js:164 | `includes` holds iff the term occurs at some position |
| Text.EmptyIsContained | src/components/CryptoGrid_optimized.js:164 | every string includes the empty string |
| Text.NatToStringInjective | src/components/GridMotion.js:11 | distinct numbers render as distinct decimal strings |
| Text.IntToStringInjective | src/data/demoData.js:383 | distinct ranks render as distinct decimal strings |
| Text.LexLess | src/components/CryptoGrid_optimized.js:185 | `localeCompare` below 0, as lexicographic order on code points |
| Text.LexTransitive | src/components/CryptoGrid_optimized.js:185 | the name order is transitive |
| Text.LexTotal | src/components/CryptoGrid_optimized.js:185 | any two different names are ordered |
| Text.LexAsymmetric | src/components/CryptoGrid_optimized.js:185 | the name order is asymmetric |

## Left out

- Timers are not modelled:
  - the `setTimeout` delays of the service (the random 300–800 ms delay of `getLiveData` and the fixed 200/300/400 ms delays);
  - the 5-second `setInterval` of `startPriceUpdates` and its cancel function;
  - the 30-second development logging interval.
  
  Each operation is the value it resolves with, and one ticker tick is `PriceUpdate`.
- The network request and `response.json()` in `src/App.js:36-42` become the `FetchOutcome` parameter, and the mount-time `useEffect` is a call to `FetchCryptoData(1, false, …)`.
- `console.warn`, `console.error`, `logReport`, `monitorMemory` and `performance.now()` are left out. A warning is a returned flag, and a duration is a parameter.
- Number formatting is not modelled: `toFixed`, `Intl.NumberFormat` and the card formatters in `src/components/CryptoGrid_optimized.js:7-34` print text. The model keeps the branch and the number printed, but not the characters.
- `localeCompare` is modelled as lexicographic order on code points, a total order. Locale collation is not modelled.
- `toLowerCase` and `toUpperCase` are modelled on ASCII letters only.
- Performance.P95Index: computes floor(0.95·n) exactly. The double-precision product `n * 0.95` is not modelled.
- GridMotion.MoveAmount: requires a positive window width. The division by a zero width (JavaScript Infinity/NaN) is not modelled.
- GridMotion.CellPrice: the `current_price` and `price_change_percentage_24h` fallbacks read fields a coin record never carries, so they are always missing here.
- DataService.JitterCoin: a missing price or change stays missing. JavaScript's `null * x == 0` is not modelled; it cannot arise because every seed is fully quoted.
- The service's `cache` map and `lastUpdate` timestamp are set in the constructor and never read again, so they are not modelled.
- The model calls handlers one after another. Interleaved fetches and React's batching of state updates are not modelled; `loadMoreCryptos` reads `currentPage` from the render in which it was created.
- Optional chaining on a missing `quote` or `USD` object is not modelled: every coin record carries a quote, and missing figures are `None` inside it.
- A `symbol` that is not a string (where `toUpperCase` would throw) is not modelled.
- The array sort algorithm itself is not modelled. Sorts are specified by their result: a sorted permutation of the input that keeps the input order of records the comparator ties (`Coins.SortByStable`), which determines the result uniquely.
- These parts of the site are rendering-only or not part of this model: `src/components/CryptoGrid.js`, `Hero_old.js`, `CryptoBackground.js`, `Header.js`, `About.js`, `Contact.js` and `Footer.js`.
- Hero.js's value animation, the IntersectionObserver and the scroll handlers are not modelled, nor GridMotion's gsap ticker and mouse listener. The offset each row is driven to (`MoveAmount`) is modelled; the tween is not.
