# Crypto portfolio tracker: verified model of the client-side stores

This project is a Dafny model of the state logic behind a browser-based cryptocurrency
portfolio tracker. It covers:

- **Alert engine** (`alerts.dfy`): a list of price alerts. Users add, remove, toggle, reset and
  clear alerts. A price check walks the list and fires every armed alert whose coin price
  crosses its target.
- **Holdings ledger** (`portfolio.dfy`): a list of holdings. Each is valued at its latest known
  price, and the whole portfolio is summed into totals. Users add, patch, remove and clear
  holdings, and price refreshes update them.
- **Coin list** (`coins.dfy`): case-insensitive search, the top five gainers and losers, lookup
  by id, and merging a price answer into the list.
- **Refresh cycle** (`price_updates.dfy`): refreshes coin prices, then re-prices the holdings,
  then checks the alerts. A re-entrancy flag stops cycles from overlapping, and the interval
  timer can be started and stopped.
- **Formatting decisions** (`formatters.dfy`): the number of fraction digits for a currency
  amount, the sign and colour of a change, and the "time ago" buckets.

`seqs.dfy` holds the list operations the stores use: `filter`, `find`/`findIndex`, and
de-duplication through an insertion-ordered `Set`. `types.dfy` holds the records.

Each store has two parts:
- pure transition functions on sequences (for example `Alerts.ToggledAlerts`), with lemmas
  about them;
- a class holding the store's state, whose methods are proved to apply those functions.

The one loop that changes store state, the `forEach` of `checkAlerts`, stays a loop in
`Alerts.AlertStore.CheckAlerts`. Its invariants tie it to `CheckedAlerts` and
`NewlyTriggered`. The `forEach` that builds the price map is `PriceUpdates.BuildPriceMap`.

Numbers are exact `real`s (`int` for millisecond time differences). Ids and timestamps are
strings passed in as parameters. JavaScript's `Record<string, number>` is a Dafny `map`, and
an optional property is an `Option`.

Behaviour the model keeps as the code has it:
- A price check skips a price of 0 as well as a missing price.
- Valuation falls back to the buy price when the current price is 0 or missing.
- A holdings price refresh does store a price of 0.
- Alerts are checked only when at least one holding exists.

A failed price fetch is absorbed by the coin store, which catches its own error and leaves
its coin list and its `lastUpdated` as they were. The refresh cycle therefore still goes on:
it re-prices the holdings from the coin list it already had, checks the alerts against those
prices, and records its own `lastUpdate`. `PriceUpdates.PriceUpdater.CompleteCycle` states
this behaviour.

## Model

| member | source | states |
|---|---|---|
| `Alerts.ActiveAlerts` | app/stores/alerts.ts:14-16 | an alert is listed iff it is in the store, active and not triggered |
| `Alerts.TriggeredAlerts` | app/stores/alerts.ts:18-20 | an alert is listed iff it is in the store and triggered |
| `Alerts.AlertsByCoin` | app/stores/alerts.ts:30-32 | an alert is listed iff it is in the store and is for that coin |
| `Alerts.GettersKeepOrder` | app/stores/alerts.ts:14-32 | each getter distributes over concatenation and keeps or drops one alert at a time, so listed alerts keep their order and multiplicity |
| `Alerts.ActiveAndTriggeredAreDisjoint` | app/stores/alerts.ts:14-28 | no alert is both active and triggered; the active count plus the triggered count is at most the alert count |
| `Alerts.NewAlert` | app/stores/alerts.ts:36-42 | the new alert has the given id and creation time, is not triggered, and carries every caller field unchanged |
| `Alerts.AlertStore.AddAlert` | app/stores/alerts.ts:36-45 | exactly one alert is appended; earlier alerts are unchanged and keep their order |
| `Alerts.WithoutAlert` | app/stores/alerts.ts:47-50 | exactly the alerts with a different id remain |
| `Alerts.AlertStore.RemoveAlert` | app/stores/alerts.ts:47-50 | the list becomes `WithoutAlert` of the old list |
| `Alerts.WithoutAlertKeepsOrder` | app/stores/alerts.ts:47-50 | removal distributes over concatenation and keeps or drops one alert at a time, so survivors keep their order and multiplicity |
| `Alerts.RemoveUndoesAdd` | app/stores/alerts.ts:36-50 | removing a just-added alert's fresh id gives back the old list |
| `Alerts.ToggledAlerts` | app/stores/alerts.ts:52-58 | only the first alert with the id has `isActive` flipped; no `isTriggered` changes; an unknown id changes nothing |
| `Alerts.AlertStore.ToggleAlert` | app/stores/alerts.ts:52-58 | the list becomes `ToggledAlerts` of the old list |
| `Alerts.ToggleTwiceRestores` | app/stores/alerts.ts:52-58 | toggling the same id twice gives back the original list |
| `Alerts.Evaluated` | app/stores/alerts.ts:64-77 | an alert ends up triggered iff it was triggered or it fires; a fired alert is stamped with the time; only the trigger fields change |
| `Alerts.CheckedAlerts` | app/stores/alerts.ts:60-78 | a check keeps the number of alerts |
| `Alerts.CheckChangesOnlyEligibleAlerts` | app/stores/alerts.ts:63-78 | inactive or already-triggered alerts are untouched; an alert is triggered afterwards iff it was, or it is armed and its present, non-zero price crosses the target (inclusive); only `isTriggered`/`triggeredAt` change |
| `Alerts.NewlyTriggered` | app/stores/alerts.ts:61-85 | the batch is no longer than the list, and each alert in it is triggered and stamped with this check's time |
| `Alerts.BatchIsPromotedAlerts` | app/stores/alerts.ts:60-85 | the batch is exactly the alerts that went from untriggered to triggered in this call, in list order |
| `Alerts.CheckIsIdempotent` | app/stores/alerts.ts:63-85 | a second check with the same prices, at any time, changes nothing and returns an empty batch |
| `Alerts.AlertStore.CheckOne` | app/stores/alerts.ts:64-77 | the if-chain for one alert reports a firing exactly when `Fires` holds and yields the alert as `Evaluated` leaves it |
| `Alerts.AlertStore.CheckAlerts` | app/stores/alerts.ts:60-86 | the loop leaves the list at `CheckedAlerts` and returns `NewlyTriggered` of the old list |
| `Alerts.ResetAlerts` | app/stores/alerts.ts:111-118 | only the first alert with the id loses `isTriggered` and `triggeredAt`; an unknown id changes nothing |
| `Alerts.AlertStore.ResetTriggeredAlert` | app/stores/alerts.ts:111-118 | the list becomes `ResetAlerts` of the old list |
| `Alerts.ResetRearms` | app/stores/alerts.ts:111-118 | after a reset, an active alert whose price still crosses fires again on the next check |
| `Alerts.BoundaryPriceFiresOnce` | app/stores/alerts.ts:66-71 | an alert at exactly its target price fires; checking it again at a higher price returns nothing |
| `Alerts.AlertStore.ClearAllAlerts` | app/stores/alerts.ts:139-142 | the list becomes empty |
| `Alerts.AlertStore.constructor` | app/stores/alerts.ts:9-11 | the store starts with no alerts |
| `Portfolio.ValuationPrice` | app/stores/portfolio.ts:16 | the current price if present and non-zero, the buy price otherwise |
| `Portfolio.Percentage` | app/stores/portfolio.ts:20 | 0 when the cost is not positive; otherwise percentage times cost equals gain times 100 |
| `Portfolio.Valued` | app/stores/portfolio.ts:15-27 | value is amount times the valuation price; profit/loss is value minus cost; the percentage is zero-cost-guarded |
| `Portfolio.HoldingsWithValues` | app/stores/portfolio.ts:14-28 | one entry per holding, in order: entry i is the holding i valued by `Valued` (its holding, value, profit/loss and guarded percentage) |
| `Portfolio.Summary` | app/stores/portfolio.ts:31-46 | the totals are the sums of per-holding value and cost; profit/loss is their difference; the same zero-cost guard applies |
| `Portfolio.SummaryProfitLossIsSumOfHoldings` | app/stores/portfolio.ts:34-37 | the portfolio's profit/loss equals the sum of the per-holding profit/loss |
| `Portfolio.AppendedHoldingAddsToTotals` | app/stores/portfolio.ts:34-35 | appending a holding adds exactly its value to the total value and its cost to the total cost |
| `Portfolio.ValuationExample` | app/stores/portfolio.ts:16-20 | amount 2, buy price 100, price 150 gives value 300, cost 200, profit 100, percentage 50 |
| `Portfolio.UniqueCoinIds` | app/stores/portfolio.ts:52-54 | no duplicates; exactly the held coin ids; in order of first appearance |
| `Portfolio.NewHolding` | app/stores/portfolio.ts:58-62 | the new holding has the given id and every caller field unchanged |
| `Portfolio.PortfolioStore.AddHolding` | app/stores/portfolio.ts:58-65 | exactly one holding is appended; earlier holdings are unchanged and keep their order |
| `Portfolio.Merge` | app/stores/portfolio.ts:72 | every field the patch carries takes the patch's value; every other field keeps the holding's value |
| `Portfolio.MergeLaws` | app/stores/portfolio.ts:72 | merging an empty patch changes nothing; merging a patch twice equals merging it once |
| `Portfolio.UpdatedHoldings` | app/stores/portfolio.ts:67-76 | only the first holding with the id is replaced by its merge with the patch; an unknown id changes nothing |
| `Portfolio.PortfolioStore.UpdateHolding` | app/stores/portfolio.ts:67-76 | the list becomes `UpdatedHoldings` of the old list |
| `Portfolio.WithoutHolding` | app/stores/portfolio.ts:78-81 | exactly the holdings with a different id remain |
| `Portfolio.PortfolioStore.RemoveHolding` | app/stores/portfolio.ts:78-81 | the list becomes `WithoutHolding` of the old list |
| `Portfolio.WithoutHoldingKeepsOrder` | app/stores/portfolio.ts:78-81 | removal distributes over concatenation and keeps or drops one holding at a time, so survivors keep their order and multiplicity |
| `Portfolio.RemoveUndoesAdd` | app/stores/portfolio.ts:58-81 | removing a just-added holding's fresh id gives back the old list |
| `Portfolio.PricesUpdated` | app/stores/portfolio.ts:83-88 | same length and order; only `currentPrice` changes; it becomes the map's price when the key is present (0 included); otherwise the holding is untouched |
| `Portfolio.PricesUpdatedLaws` | app/stores/portfolio.ts:83-88 | applying the same map twice equals applying it once; an empty map changes nothing |
| `Portfolio.RefreshedValuation` | app/stores/portfolio.ts:16-19 | after a refresh, a non-zero price values the holding at that price; a 0 price is stored but valued at the buy price, so profit/loss is 0 |
| `Portfolio.PortfolioStore.UpdatePrices` | app/stores/portfolio.ts:83-88 | the list becomes `PricesUpdated` of the old list |
| `Portfolio.PortfolioStore.ClearPortfolio` | app/stores/portfolio.ts:109-112 | the list becomes empty |
| `Portfolio.PortfolioStore.constructor` | app/stores/portfolio.ts:9-11 | the store starts with no holdings |
| `Coins.IncludesIsSubstring` | app/stores/coins.ts:28-29 | `includes` holds iff the query occurs at some position of the text |
| `Coins.FilteredCoins` | app/stores/coins.ts:24-31 | an empty query returns the list unchanged; otherwise a coin is listed iff it is in the list and its lower-cased name or symbol contains the lower-cased query |
| `Coins.SearchKeepsOrder` | app/stores/coins.ts:27-30 | searching a concatenation concatenates the results, and a single coin is listed once exactly when the query is empty or it matches, so matches keep their order and multiplicity |
| `Coins.SearchFindsSubstrings` | app/stores/coins.ts:26-30 | with a non-empty query, a listed coin is found iff the lower-cased query occurs in its lower-cased name or symbol |
| `Coins.SortByChange` | app/stores/coins.ts:34-35 | the sorted copy is a permutation of the list, ordered by the key |
| `Coins.TopMovers` | app/stores/coins.ts:33-43 | min(5, n) coins drawn from the list (as a multiset), sorted by the key |
| `Coins.TopMoversOmitNoLarger` | app/stores/coins.ts:33-43 | no coin left out has a larger key than the last one kept |
| `Coins.TopGainers` | app/stores/coins.ts:33-37 | min(5, n) coins from the list, in non-increasing 24h change; no omitted coin has a larger change than the last one |
| `Coins.TopLosers` | app/stores/coins.ts:39-43 | min(5, n) coins from the list, in non-decreasing 24h change; no omitted coin has a smaller change than the last one |
| `Coins.CoinById` | app/stores/coins.ts:45-47 | none iff no coin has the id; otherwise the first coin with the id |
| `Coins.MergePrices` | app/stores/coins.ts:108-112 | same length and order; only price and 24h change change; they take the answer's values when present and otherwise keep the old ones |
| `Coins.MergePricesLaws` | app/stores/coins.ts:108-112 | merging the same answer twice equals merging it once; an empty answer changes nothing |
| `Coins.RefreshedCoins` | app/stores/coins.ts:98-117 | the length is kept; an empty list or a failed fetch leaves the list as it was; otherwise the answer is merged by `MergePrices` |
| `Coins.CoinStore.UpdatePrices` | app/stores/coins.ts:98-118 | the list becomes `RefreshedCoins`; `lastUpdated` is set only when the list was non-empty and the fetch succeeded |
| `Coins.CoinStore.SetSearchQuery` | app/stores/coins.ts:120-122 | only the query changes |
| `Coins.CoinStore.constructor` | app/stores/coins.ts:14-21 | no coins, an empty query, no update time |
| `PriceUpdates.PriceMapOf` | app/composables/usePriceUpdates.ts:23-26 | the map's keys are exactly the coin ids |
| `PriceUpdates.LastPriceWins` | app/composables/usePriceUpdates.ts:23-26 | an id maps to the price of the last coin with that id |
| `PriceUpdates.BuildPriceMap` | app/composables/usePriceUpdates.ts:23-26 | the loop builds exactly `PriceMapOf` of the coins |
| `PriceUpdates.PriceUpdater.BeginCycle` | app/composables/usePriceUpdates.ts:14-17 | a cycle is entered iff none is in flight; entering while one is in flight changes nothing |
| `PriceUpdates.PriceUpdater.CompleteCycle` | app/composables/usePriceUpdates.ts:19-37 | coins are refreshed first (the coin store's `lastUpdated` moves only on a successful fetch of a non-empty list, its query is kept); then, only when holdings exist, holdings are re-priced and alerts checked with the new coin price map; `lastUpdate` is set unless the alert store threw; the flag is always cleared |
| `PriceUpdates.PriceUpdater.UpdatePrices` | app/composables/usePriceUpdates.ts:14-38 | a no-op while a cycle is in flight; otherwise exactly what `CompleteCycle` states: refreshed coins, re-priced holdings and checked alerts when holdings exist, `lastUpdate` unless the alert store threw, the timer kept and the flag cleared |
| `PriceUpdates.PriceUpdater.StartUpdates` | app/composables/usePriceUpdates.ts:40-46 | does nothing when a timer is set; otherwise enters a cycle and records the timer |
| `PriceUpdates.PriceUpdater.StopUpdates` | app/composables/usePriceUpdates.ts:48-53 | the timer is cleared, and nothing else changes, whether or not one was set |
| `PriceUpdates.PriceUpdater.constructor` | app/composables/usePriceUpdates.ts:10-12 | no timer, no cycle in flight, no last update |
| `Formatters.CurrencyDigits` | app/composables/useFormatters.ts:2-6 | min ≤ max; explicit decimals (0 included) fix both; otherwise max is 2 to 6 and min is 0 exactly from 100 up |
| `Formatters.CurrencyDigitBands` | app/composables/useFormatters.ts:5-6 | (4, 6) below 1, (2, 2) from 1 to below 100, (0, 2) from 100; symmetric in the sign |
| `Formatters.PercentSign` | app/composables/useFormatters.ts:16-19 | `+` iff the value is ≥ 0, so zero gets `+` |
| `Formatters.ChangeStyleOf` | app/composables/useFormatters.ts:59-66 | emerald class and trending-up icon iff value ≥ 0; red class and trending-down icon for a negative value |
| `Formatters.ChangeStyleAgreesWithSign` | app/composables/useFormatters.ts:59-66 | the colour and icon agree with the `+` sign |
| `Formatters.RelativeBucket` | app/composables/useFormatters.ts:39-51 | the minutes shown are 1-59, the hours 1-23, the days 1-6 |
| `Formatters.RelativeBuckets` | app/composables/useFormatters.ts:39-51 | "just now" iff under 60 s (future dates included); then whole minutes, hours and days; a week or more falls through to the absolute format |

## Left out

- Persistence (`saveToStorage`, `loadFromStorage` in both stores): localStorage and JSON are I/O. The model has no stored snapshot. So it does not state which actions save: the price refresh of holdings never saves, while removals save even for an unknown id.
- Notifications (`notifyUser`, `requestNotificationPermission`): the browser Notification API.
- `clearSelectedCoin` and the `selectedCoin`, `loading` and `error` fields: UI selection and loading state, written only by `clearSelectedCoin` and by the fetch actions left out below; no modelled operation reads or writes them.
- `fetchCoins`, `fetchCoinDetails`, and the HTTP request inside the coin store's `updatePrices`: network calls. The price answer is a parameter (`None` for a failed request), and so are ids (`crypto.randomUUID`) and timestamps (`new Date()`).
- Clock reads: the code calls `new Date()` separately for each fired alert's `triggeredAt`, for the coin store's `lastUpdated` and for the cycle's `lastUpdate`. The model passes a single `now` to a check and to a cycle, so it does not capture those stamps differing by the milliseconds between the reads.
- Timers and async plumbing (`setInterval`, `clearInterval`, `onUnmounted`, Vue `ref`/`readonly`): the timer is an `Option` holding an opaque handle. A cycle is split at its single `await` into `BeginCycle` and `CompleteCycle`.
- Locale-dependent rendering (`Intl.NumberFormat`, `Intl.DateTimeFormat`, `toFixed`, `formatNumber`, `formatCompactNumber`): only the digit counts, the sign, the colour class and the relative-time bucket are modelled, not the text.
- IEEE-754 arithmetic: values are exact reals, so rounding, NaN and infinities are not modelled. For example, an unparsable date makes every comparison false and falls through to the absolute format.
- Aliasing: `checkAlerts` returns references to the stored alert objects, so a later reset also changes the returned batch. The model returns values.
- Exceptions inside the refresh cycle: only the alert store's save or notification can throw. That happens after all in-memory updates, and only when some alert fired. It is a boolean parameter of `CompleteCycle`; where exactly the throw happens inside the store is not modelled.
- `Coins.LowerChar`: `toLowerCase` is modelled for the ASCII letters only; other Unicode case mappings are not.
- `Portfolio.Merge`: a `Partial<Holding>` property that is present but set to `undefined` would overwrite the field with `undefined`. The model treats such a property as absent.
- `Formatters.CurrencyDigits`: a negative or fractional `decimals` is excluded by the type `nat`. `Intl.NumberFormat` floors a fractional digit count and throws on a negative one or on one above 100; the model passes any `nat` on and does not model that exception.
- `Coins.SortByChange`: the insertion sort keeps equal keys in input order, as the engine's stable sort does. That stability is not proved.
- Object keys inherited from `Object.prototype` (a coin id such as `constructor` looked up in a plain object) are not modelled; a `map` has only the keys put in it.
- `alertCount`, `activeAlertCount` and `holdingCount` are the lengths of the lists involved, and have no members of their own.
