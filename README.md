# Agent Arena dashboard: a Dafny model of its deterministic core

Agent Arena is a client-only React dashboard. It shows simulated AI trading
models and agents over mock data. Most of it is rendering, timers and random
fixtures. This project models the deterministic logic behind those screens and
proves what it promises:

- **Arena store** (`ArenaStore`): a class with the store's fields.
  - Setters replace one field each.
  - A market tick moves every price by a bounded random factor and advances the
    block height by one. The random draws are parameters.
  - The leaderboard is recomputed as a stable sort by descending return, with
    dense ranks and a rank change of 0.
  - Trade and position lookups filter by model id.
- **Trading store** (`TradingStore`): a class whose actions replace a field.
  - A partial update is merged into every agent with a matching id.
  - New activities are prepended to a log capped at 100 entries. The same
    capped prepend, with a cap of 20, drives the activity feed's own list
    (`ActivityFeed`).
- **Holding-time formatter** (`TimeFormat`): milliseconds become `"<h>h <m>m"`.
  JavaScript's `Math.floor`, truncating `%` and integer-to-text conversion are
  written out.
- **Leaderboard page** (`LeaderboardPage`): the sort-key/sort-order toggle, the
  header arrow and the winner panel.
- **Deposit page** (`DepositPage`): the deposit guard (wallet first, then
  amount) and the disabled state of the button.
- **Recent-trades panel** (`TradesFeed`): colour and name lookups with
  fallbacks, and the 20-trade window.

The shared records are in `ArenaTypes` (src/types/models.ts) and `TradingTypes`
(src/types/index.ts). The constant fixtures are in `MockModels`. `Seqs` and
`Options` hold the array operations (`filter`, `findIndex`, `slice(0, n)`) and
the optional value.

JavaScript numbers are modelled as `real`. Each store action is a method whose
`modifies` clause names only the fields it replaces. So "changes only its own
field" is part of every setter's contract.

## Model

| member | source | states |
|---|---|---|
| `ArenaStore.SortByReturn` | src/store/useArenaStore.ts:82 | the sorted copy has as many entries as the models; its order and permutation facts are `SortByReturnSpec` and `SortByReturnStable` |
| `ArenaStore.InsertByReturnSpec` | src/store/useArenaStore.ts:82 | one insertion step adds exactly `m` (multiset), its head is `m` or the old head, and a descending list stays descending |
| `ArenaStore.SortByReturnSpec` | src/store/useArenaStore.ts:82 | the sorted copy is a permutation of the models (same multiset) and its returns never increase |
| `ArenaStore.SortByReturnStable` | src/store/useArenaStore.ts:82 | models with equal return keep their input order (the engine's sort is stable) |
| `ArenaStore.SortByReturnOfSorted` | src/store/useArenaStore.ts:82 | a list already in non-increasing return order is left unchanged |
| `ArenaStore.Ranked` | src/store/useArenaStore.ts:84-88 | entry `i` holds the `i`-th sorted model whole, with rank `i + 1` and rank change 0; `UnrankedOfRanked` takes the models back out unchanged |
| `ArenaStore.LeaderboardOf` | src/store/useArenaStore.ts:80-88 | the leaderboard is a permutation of the models, in non-increasing return order, with rank `i + 1` at index `i` and rank change 0; each entry carries its model record unchanged |
| `ArenaStore.LeaderboardOfStable` | src/store/useArenaStore.ts:82-88 | within the leaderboard, ties in return keep the store's model order |
| `ArenaStore.Jittered` | src/store/useArenaStore.ts:73 | a positive price rises exactly when the draw is above 0.5 and is unchanged exactly when the draw is 0.5 |
| `ArenaStore.JitteredBounds` | src/store/useArenaStore.ts:73 | one tick moves a positive price by less than 0.05% either way, so it stays positive |
| `ArenaStore.Latency` | src/store/useArenaStore.ts:75 | the simulated latency lies in 35..64 ms |
| `ArenaStore.JitterPrices` | src/store/useArenaStore.ts:71-74 | a tick keeps the price list's length, symbols, order and 24h changes |
| `ArenaStore.JitterPricesPositive` | src/store/useArenaStore.ts:70-74 | if all prices are positive before a tick, they are all positive after it |
| `ArenaStore.Store.constructor` | src/store/useArenaStore.ts:41-59 | initial state: fixture models, empty leaderboard, block height 245678901, latency 45, no selection, range ALL, wallet disconnected, total value = sum of account values |
| `ArenaStore.Store.SetSelectedModel` | src/store/useArenaStore.ts:62 | sets only the selected model id (or clears it) |
| `ArenaStore.Store.SetTimeRange` | src/store/useArenaStore.ts:64 | sets only the time range |
| `ArenaStore.Store.SetWalletConnected` | src/store/useArenaStore.ts:66 | sets only the wallet flag |
| `ArenaStore.Store.UpdateMarketPrices` | src/store/useArenaStore.ts:68-78 | the block height increases by exactly 1; prices keep their symbols and order; latency is in 35..64; positive prices stay positive; nothing else changes |
| `ArenaStore.Store.CalculateLeaderboard` | src/store/useArenaStore.ts:80-91 | the new leaderboard is a dense, ordered permutation of the models; the model list is not modified |
| `ArenaStore.Store.GetModelTrades` | src/store/useArenaStore.ts:93-96 | exactly the trades with that model id, each as often as stored, in stored order; an unknown id gives an empty list; the store is only read |
| `ArenaStore.Store.GetModelPositions` | src/store/useArenaStore.ts:98-101 | exactly the positions with that model id, each as often as stored, in stored order; an unknown id gives an empty list; the store is only read |
| `ArenaStore.MockLeaderboard` | src/data/mockModels.ts:4-110 | the fixture (returns 28.45, 15.23, 8.92, -2.46, -7.66) ranks 1..5 in listed order, gpt5 first and grok last |
| `ArenaStore.TotalAccountValueAppend` | src/store/useArenaStore.ts:58 | the summed account value splits over any cut of the model list, as the `reduce` from 0 does |
| `ArenaStore.MockTotalAccountValue` | src/store/useArenaStore.ts:58 | the initial total account value of the fixture is 542482.52 |
| `ArenaStore.ReorderingExample` | src/store/useArenaStore.ts:80-88 | models listed with returns 10, 25, -5 are ranked 25, 10, -5 |
| `Seqs.Prefix` | src/store/useTradingStore.ts:38 | `slice(0, n)` has `min(n, length)` elements and they are the input's leading ones |
| `Seqs.Filter` | src/store/useArenaStore.ts:95 | the filtered list is no longer than the input and holds only matching elements of it; `FilterSpec` gives multiplicities and order |
| `Seqs.FilterSpec` | src/store/useArenaStore.ts:95 | `filter` keeps exactly the matching elements, with their multiplicities, as a subsequence of the input |
| `Seqs.FilterAppend` | src/store/useArenaStore.ts:100 | filtering distributes over concatenation |
| `Seqs.FindIndex` | src/components/TradesFeed.tsx:18 | `find` locates the first matching element, or reports that none matches |
| `TradingStore.UpdateAgents` | src/store/useTradingStore.ts:29-31 | same length and order; agents with another id are unchanged; matching agents are merged with the update |
| `TradingStore.Merge` | src/store/useTradingStore.ts:30 | the shallow spread `{ ...agent, ...updates }`, field by field; its laws are `MergeLaws` |
| `TradingStore.MergeLaws` | src/store/useTradingStore.ts:30 | an empty update changes nothing; a full update replaces every field; merging is idempotent; two merges equal one merge of the combined update |
| `TradingStore.UpdateAgentsUnknownId` | src/store/useTradingStore.ts:29-31 | an id no agent has leaves the agents as they were |
| `TradingStore.UpdateAgentsIdempotent` | src/store/useTradingStore.ts:27-32 | applying the same update twice equals applying it once, even when the update renames the agent |
| `TradingStore.CappedPrepend` | src/store/useTradingStore.ts:38 | the new entry is at index 0; the length is min(old + 1, cap); the rest is the old log's prefix in order |
| `TradingStore.PrependAllNewestFirst` | src/store/useTradingStore.ts:36-39 | after any sequence of insertions the log is the inserted entries newest first, then the old log, cut to the cap |
| `TradingStore.KeepsMostRecent` | src/store/useTradingStore.ts:38 | after at least `cap` insertions the log holds exactly the `cap` most recent entries, newest first, so only the oldest are evicted |
| `TradingStore.Store.constructor` | src/store/useTradingStore.ts:18-23 | initial state: the fixture agents, no selection, empty positions and activities, disconnected |
| `TradingStore.Store.SetSelectedAgent` | src/store/useTradingStore.ts:25 | sets only the selected agent |
| `TradingStore.Store.UpdateAgent` | src/store/useTradingStore.ts:27-32 | replaces only `agents`, with the merged list; count and order unchanged; non-matching agents unchanged |
| `TradingStore.Store.SetConnected` | src/store/useTradingStore.ts:34 | sets only the connection flag |
| `TradingStore.Store.AddActivity` | src/store/useTradingStore.ts:36-39 | the activity is at index 0; the length is min(old + 1, 100); entries 1.. are the old prefix; the 100-entry bound is kept |
| `ActivityFeed.Feed.constructor` | src/components/ActivityFeed.tsx:51 | the feed starts with its seed list |
| `ActivityFeed.Feed.Push` | src/components/ActivityFeed.tsx:71 | the same capped prepend with cap 20 |
| `TimeFormat.NatToString` | src/utils/time.ts:13 | a whole number's text is a non-empty digit string without leading zeros |
| `TimeFormat.NatToStringValue` | src/utils/time.ts:13 | the digits denote the number they were made from |
| `TimeFormat.IntToString` | src/utils/time.ts:13 | an integer's text is non-empty and made only of digits and a minus sign |
| `TimeFormat.NumeralHasNoMarks` | src/utils/time.ts:13 | such text contains no `h`, `m` or space, so the hours and minutes cannot run into the separators |
| `TimeFormat.IntToStringRoundTrip` | src/utils/time.ts:13 | the integer text reads back as the same integer |
| `TimeFormat.FormatHoldingTime` | src/utils/time.ts:7-14 | the placeholder is shown exactly when the time is null or 0 |
| `TimeFormat.Hours` | src/utils/time.ts:10 | the hour count `h` is the largest whole number with `h` hours at most `ms` |
| `TimeFormat.Minutes` | src/utils/time.ts:11 | the minute count is the number of whole minutes in the JavaScript remainder of `ms` by an hour |
| `TimeFormat.FloorHours` | src/utils/time.ts:10 | for a non-negative time, the hour count depends only on the whole milliseconds |
| `TimeFormat.FloorMinutes` | src/utils/time.ts:11 | for a non-negative value, the minute count depends only on its whole part |
| `TimeFormat.HoldingTimeParts` | src/utils/time.ts:10-11 | for ms >= 0: hours = ms div 3600000; minutes = (ms mod 3600000) div 60000, in 0..59; and `h*3600000 + m*60000 <= ms < h*3600000 + (m+1)*60000` |
| `TimeFormat.HoldingTimeOfWholeMs` | src/utils/time.ts:7-14 | for whole ms the output is the placeholder at 0, otherwise `"<ms div 3600000>h <(ms mod 3600000) div 60000>m"` |
| `TimeFormat.HoldingTimeOfFraction` | src/utils/time.ts:10-11 | a fractional time of at least 1 ms shows what its floor shows |
| `TimeFormat.HoldingTimeBelowOneMs` | src/utils/time.ts:8 | a time strictly between 0 and 1 ms shows `"0h 0m"`, not the placeholder |
| `TimeFormat.HoursMinutesReadBack` | src/utils/time.ts:13 | any whole hours and minutes written as `"<h>h <m>m"` read back as the same pair |
| `TimeFormat.FormatHoldingTimeReadsBack` | src/utils/time.ts:13 | the text has the form `"<h>h <m>m"` and reads back as exactly the hours and minutes; the placeholder does not read as a time |
| `TimeFormat.FormatHoldingTimeAsWritten` | src/utils/time.ts:8 | with the literal as written, a null or 0 time shows three characters unlike the intended dash; every other time is shown as intended |
| `TimeFormat.PlaceholderAsWrittenIsNotADash` | src/utils/time.ts:8 | the literal as written is "â€" followed by a right double quote; the corrected placeholder is the single em dash |
| `LeaderboardPage.NextSort` | src/pages/Leaderboard.tsx:33-40 | the clicked column becomes the sort key; clicking the current key flips the order; a new key starts ascending iff it is `rank` |
| `LeaderboardPage.NextSortTwice` | src/pages/Leaderboard.tsx:34-38 | two clicks on the current key restore the state; two clicks on another key leave it in the order opposite to its first one |
| `LeaderboardPage.Icon` | src/pages/Leaderboard.tsx:42-49 | an arrow only on the active column, pointing up iff the order is ascending |
| `LeaderboardPage.Winner` | src/pages/Leaderboard.tsx:51 | the winner is absent exactly for an empty table, and otherwise is the table's first entry |
| `LeaderboardPage.WinnerOfAnyOrder` | src/pages/Leaderboard.tsx:51 | for any reordering of the leaderboard, the winner is absent iff the leaderboard is empty, and otherwise is one of its entries |
| `LeaderboardPage.WinnerByRank` | src/pages/Leaderboard.tsx:14-31 | in the initial (rank, asc) state the winner is the rank-1 entry, whose return is at least every model's |
| `LeaderboardPage.SortState.constructor` | src/pages/Leaderboard.tsx:14-15 | the initial sort state is (`rank`, `asc`) |
| `LeaderboardPage.SortState.HandleSort` | src/pages/Leaderboard.tsx:33-40 | the state moves by `NextSort`; the clicked key becomes active; the order flips on the same key, otherwise it takes the key's first order |
| `LeaderboardPage.SortState.SortIcon` | src/pages/Leaderboard.tsx:42-49 | an arrow only on the active column, up iff ascending |
| `DepositPage.DepositValue` | src/pages/Deposit.tsx:12 | the value is the parsed amount when there is one and 0 for an unparsable amount, so it is positive iff the parse gave a positive number |
| `DepositPage.HandleDeposit` | src/pages/Deposit.tsx:28-39 | a disconnected wallet gives the connect-wallet notice whatever the amount; then a non-positive amount gives the invalid-amount notice; accepted iff connected and amount > 0, for that amount and duration |
| `DepositPage.ButtonDisabled` | src/pages/Deposit.tsx:143 | the `disabled` condition; `ButtonMatchesGuard` proves it is true exactly when `HandleDeposit` would refuse |
| `DepositPage.ButtonMatchesGuard` | src/pages/Deposit.tsx:143 | the button is disabled exactly when `handleDeposit` would refuse |
| `DepositPage.UnparsableAmountRefused` | src/pages/Deposit.tsx:12-36 | unparsable input is refused: with the invalid-amount notice if connected, otherwise with the connect-wallet notice |
| `TradesFeed.DisplayedTrades` | src/components/TradesFeed.tsx:12-15 | the panel shows the first min(20, total) trades, in order |
| `TradesFeed.ModelColor` | src/components/TradesFeed.tsx:17-20 | the colour of the first model with that id; `#6B7280` when no model matches or its colour is empty |
| `TradesFeed.ModelName` | src/components/TradesFeed.tsx:22-25 | the name of the first model with that id; the id itself when no model matches or its name is empty |

## Left out

- Rendering, styling, animation and routing are left out. This covers every JSX tree, the charts (recharts wrappers, and `ChartPanel`'s random data), `App.tsx`, `Navbar.tsx`, `Navigation.tsx`, `AgentCard.tsx`, `TradePanel.tsx` and the theme configuration. None of them has behaviour to state.
- Timers and subscriptions are left out: the status-bar and dashboard timeouts, the activity feed's 5-second interval (and its `isConnected` gate), the deferred first `calculateLeaderboard` and zustand's re-render plumbing. The feed's per-tick update is modelled as `ActivityFeed.Feed.Push`.
- The random generators are parameters, not models. `generateMockTrades`, `generateMockPositions` and `generateEquityCurve` are arguments of `ArenaStore.Store.constructor`. The `mockAgents` data is an argument of `TradingStore.Store.constructor`. Each `Math.random()` value of a market tick is a draw in [0, 1) passed to `UpdateMarketPrices`.
- Floating point is not modelled: numbers are exact reals. Rounding, NaN, infinities and `-0` are out. In particular the price products, the account-value sum and the leaderboard comparator `b - a` are exact. On finite, non-NaN values that comparator has the sign of the real difference.
- `parseFloat` itself is left out. Its result is an `Option<real>`, with `None` for NaN. Inputs that parse to `Infinity` are out.
- Number-to-text conversion is modelled for whole numbers in positional notation only. Magnitudes of 1e21 and above, which JavaScript prints in exponent notation, are out.
- The leaderboard page's column comparator (src/pages/Leaderboard.tsx:19-28) is left out. It never returns 0, so the order it gives ties depends on the engine's sort algorithm.
- `LeaderboardPage.WinnerOfAnyOrder`: for key/order states other than (`rank`, `asc`), this states only that the winner is some entry of the leaderboard, not which one. This follows from the comparator being left out.
- The float aggregates are left out: `avgReturn`, `projectedReturn` and `apy` on the deposit page (NaN for an empty model list), the header's `totalPnL` and the live page's 24h change.
- `formatTimeAgo` and `formatTimestamp` are left out; they wrap date-fns and `toLocaleString`. `formatCurrency` and `formatPercentage` are left out too: src/utils/format.ts is not part of this model.
- A `Partial<Agent>` key that is present but explicitly `undefined` is not modelled. The spread would copy that `undefined` into the agent; here a field is either given or absent.
- The deposit page's duration selector is not modelled as state. The selected duration is a parameter of `DepositPage.HandleDeposit`.
- Model ids are plain strings rather than the five-name union type. The lookups accept any string, as their callers do.

## Findings

| source | as written | input that shows it | evidently intended | confidence | as-written member | corrected member |
|---|---|---|---|---|---|---|
| src/utils/time.ts:8 | the placeholder literal is the three characters U+00E2, U+20AC, U+201D: the UTF-8 bytes of an em dash read as Windows-1252 | `formatHoldingTime(null)` or `formatHoldingTime(0)` shows "â€" followed by a right double quote | a single em dash U+2014 | high; not executed | `TimeFormat.FormatHoldingTimeAsWritten` | `TimeFormat.FormatHoldingTime` |
