# LiveCryptoCoins core, modelled in Dafny

This project models the core of a small Android app that shows live
cryptocurrency prices. The app works in three steps:

1. It downloads a snapshot of all coins. `AllCoinsResponse` turns that snapshot into a list of coins, or into `null` when no item has an id.
2. It opens an update stream. Each message is a `PricesResponse` with an optional price string for bitcoin, ethereum, monero and litecoin.
3. It merges every message into the snapshot (`MainScreenViewModel.updatePrices`). Bitcoin prices go to `LineGraphManager`, which keeps a running minimum and maximum plus a short window of recent prices. A job running once a second normalises that window into chart dots.

When the stream ends, the chart job is cancelled and the state goes to
Disconnected. A network callback is registered, at most once, and it
reconnects the stream when the network returns.

The project has these modules:

- `LineGraph` (`line_graph.dfy`) models `LineGraphManager`.
  - The class keeps the source's fields: `maxPrice`, `minPrice` and `allPrices`.
  - Its methods are proved against two value-level functions: `Save`, one `savePrice`, and `GraphData`, `calculateGraphData`.
  - Lemmas about those functions cover FIFO eviction, window size, the global extremes and the [0, 1] range of the dots.
- `PricesDecoding` (`prices_response.dfy`) models `PricesResponse.convertToCoinList` and `addCoinToList`.
- `AllCoinsDecoding` (`all_coins_response.dfy`) models `AllCoinsResponse.convertToCoinList`.
- `MainScreen` (`main_screen.dfy`) models the screen state types and `MainScreenViewModel`.
  - The view model is a class. Each coroutine segment between suspension points is one event method.
  - Its invariant says: at most one chart job runs, and it runs exactly while the state is Connected; the network callback is registered at most once.
  - `updatePrices` is proved against `Merged`, a function that applies the updates in order.
- `Coins` and `Wrappers` hold the `Coin` record and an `Option` type.

Kotlin's `String.toFloatOrNull` appears as a parameter `parse: string -> Option<real>`. Prices are `real`.

Behaviour of the source worth knowing:

- `loadAllCoins` APPENDS the downloaded coins to `allCoins` (`addAll`) and does not replace them. A failed download appends nothing, so a retry after `LoadingFailed` is harmless. A second SUCCESSFUL download, such as two loads in flight at once, or `retryFirstLoading` called after a download, would duplicate every entry.
- The window holds up to LIMIT + 1 = 11 prices, not 10. The eviction test is `size > LIMIT` and runs before the append.
- The "dots from 0 to 1" promise (`LineGraphData.kt:4`) is proved for histories of positive prices. A saved 0 breaks it, as `LineGraph.SentinelZeroEscapes` shows: the 0 is kept in the window but does not set the 0-means-unset sentinels, so a later dot leaves [0, 1].
- The repository wraps the update stream in a catch-all (`CoinsRepository.kt:73`). Cancelling the view model's scope therefore ends the stream normally, and so does the throw of `allCoins[-1]` on an unknown coin name. The stream-end code then runs. When that happens after `onCleared`, it registers a network callback that is never unregistered, as `MainScreen.ClearedThenStreamEnds` shows.

## Model

| member | source | states |
|---|---|---|
| LineGraph.Save | app/src/main/java/com/valllent/websocket/utils/LineGraphManager.kt:16-27 | one `savePrice` on the window value: raise max or min (or set them on the first save), evict the oldest price when more than LIMIT are held, append the new one |
| LineGraph.SaveAll | app/src/main/java/com/valllent/websocket/utils/LineGraphManager.kt:16-27 | `savePrice` applied to each price of a history, in order |
| LineGraph.SaveAppends | app/src/main/java/com/valllent/websocket/utils/LineGraphManager.kt:16-27 | one `savePrice` ends the window with the new price and grows it by one, up to LIMIT + 1 |
| LineGraph.SaveBounds | app/src/main/java/com/valllent/websocket/utils/LineGraphManager.kt:17-21 | a positive save keeps every retained price between min and max, sets both on the first save, and only widens the range afterwards |
| LineGraph.SaveAllGood | app/src/main/java/com/valllent/websocket/utils/LineGraphManager.kt:16-27 | after any sequence of positive saves, the retained prices lie within [minPrice, maxPrice] and minPrice is positive |
| LineGraph.HistoryExtremes | app/src/main/java/com/valllent/websocket/utils/LineGraphManager.kt:17-21 | for positive histories, maxPrice and minPrice are the maximum and minimum of EVERY price saved, evicted ones included |
| LineGraph.SaveAllSnoc | app/src/main/java/com/valllent/websocket/utils/LineGraphManager.kt:16-27 | saving one more price is one more `savePrice` step on the state reached so far |
| LineGraph.SaveIsLatest | app/src/main/java/com/valllent/websocket/utils/LineGraphManager.kt:23-26 | eviction before append keeps exactly the last LIMIT + 1 prices of the old window plus the new one |
| LineGraph.WindowIsLatest | app/src/main/java/com/valllent/websocket/utils/LineGraphManager.kt:23-26 | the window is a FIFO: after any saves it is the last LIMIT + 1 prices of everything saved, in arrival order |
| LineGraph.WindowBound | app/src/main/java/com/valllent/websocket/utils/LineGraphManager.kt:9 | from the empty manager the window is the latest min(n, 11) prices, so it never exceeds 11 |
| LineGraph.Normalize | app/src/main/java/com/valllent/websocket/utils/LineGraphManager.kt:33-38 | one dot: `(max - price) / (max - min)`, or 0 when max equals min |
| LineGraph.GraphData | app/src/main/java/com/valllent/websocket/utils/LineGraphManager.kt:29-46 | the chart data of a window: its min, its max and one `Normalize` dot per retained price, in order |
| LineGraph.NormalizeInUnitInterval | app/src/main/java/com/valllent/websocket/utils/LineGraphManager.kt:33-38 | for a price between min and max (min < max), the dot lies in [0, 1]; it is 0 exactly at max and 1 exactly at min |
| LineGraph.DotsInUnitInterval | app/src/main/java/com/valllent/websocket/data/LineGraphData.kt:4-10 | under the window invariant every dot lies in [0, 1], as the data class documents |
| LineGraph.DotExtremes | app/src/main/java/com/valllent/websocket/utils/LineGraphManager.kt:33-38 | dot 0 marks the maximum and dot 1 the minimum; a flat window gives all-zero dots (the delta == 0 branch) |
| LineGraph.PositiveHistoryDots | app/src/main/java/com/valllent/websocket/data/LineGraphData.kt:4-10 | any history of positive prices yields dots within [0, 1] |
| LineGraph.SentinelZeroEscapes | app/src/main/java/com/valllent/websocket/utils/LineGraphManager.kt:17-18 | saving 0, then p, then a lower q gives a first dot of p / (p - q) > 1: a zero price breaks the [0, 1] promise |
| LineGraph.LineGraphManager.constructor | app/src/main/java/com/valllent/websocket/utils/LineGraphManager.kt:12-14 | a new manager holds the empty window with both sentinels at 0 |
| LineGraph.LineGraphManager.SavePrice | app/src/main/java/com/valllent/websocket/utils/LineGraphManager.kt:16-27 | the in-place update moves the state by exactly one `Save` step, appends the price to the history, and keeps the window equal to the saves of the whole history |
| LineGraph.LineGraphManager.CalculateGraphData | app/src/main/java/com/valllent/websocket/utils/LineGraphManager.kt:29-46 | the loop returns min, max and one normalised dot per retained price, in order, leaving the manager unchanged |
| PricesDecoding.Parsed | app/src/main/java/com/valllent/websocket/network/responses/PricesResponse.kt:26-28 | a field's price: none when the field is null or does not parse, otherwise the parsed value |
| PricesDecoding.Entry | app/src/main/java/com/valllent/websocket/network/responses/PricesResponse.kt:25-32 | a field contributes one coin with its fixed name and parsed price exactly when it is present and parses, and nothing otherwise |
| PricesDecoding.EntryReports | app/src/main/java/com/valllent/websocket/network/responses/PricesResponse.kt:25-32 | a field's own entry names the coin exactly when the field parses, with the parsed value |
| PricesDecoding.ReportsBefore | app/src/main/java/com/valllent/websocket/network/responses/PricesResponse.kt:14-23 | appending coins of other names keeps a field reported exactly |
| PricesDecoding.ReportsAfter | app/src/main/java/com/valllent/websocket/network/responses/PricesResponse.kt:14-23 | prepending coins of other names keeps a field reported exactly |
| PricesDecoding.Decoded | app/src/main/java/com/valllent/websocket/network/responses/PricesResponse.kt:14-20 | the decoded list: the entries of bitcoin, ethereum, monero and litecoin, concatenated in that order |
| PricesDecoding.DecodedInFixedOrder | app/src/main/java/com/valllent/websocket/network/responses/PricesResponse.kt:17-20 | the decoded list is ordered bitcoin, ethereum, monero, litecoin, with no duplicate names |
| PricesDecoding.BitcoinReported | app/src/main/java/com/valllent/websocket/network/responses/PricesResponse.kt:17 | bitcoin is in the list iff its field parses, with the parsed value, whatever the other fields hold |
| PricesDecoding.EthereumReported | app/src/main/java/com/valllent/websocket/network/responses/PricesResponse.kt:18 | the same for ethereum |
| PricesDecoding.MoneroReported | app/src/main/java/com/valllent/websocket/network/responses/PricesResponse.kt:19 | the same for monero |
| PricesDecoding.LitecoinReported | app/src/main/java/com/valllent/websocket/network/responses/PricesResponse.kt:20 | the same for litecoin |
| PricesDecoding.AddCoinToList | app/src/main/java/com/valllent/websocket/network/responses/PricesResponse.kt:25-32 | a null field or a failed parse leaves the list unchanged; otherwise the coin is appended |
| PricesDecoding.ConvertToCoinList | app/src/main/java/com/valllent/websocket/network/responses/PricesResponse.kt:14-23 | at most four coins in fixed order; each field is reported exactly when it parses, with its own value; an all-null message decodes to the empty list |
| AllCoinsDecoding.Items | app/src/main/java/com/valllent/websocket/network/responses/AllCoinsResponse.kt:19 | the items of the response; a null `data` gives none |
| AllCoinsDecoding.PriceOf | app/src/main/java/com/valllent/websocket/network/responses/AllCoinsResponse.kt:22 | a missing or unparseable `priceUsd` becomes 0; otherwise the price is the parsed value |
| AllCoinsDecoding.Collected | app/src/main/java/com/valllent/websocket/network/responses/AllCoinsResponse.kt:21-24 | the coins the loop collects: one per item with an id, priced by `PriceOf`, in order |
| AllCoinsDecoding.IdPositions | app/src/main/java/com/valllent/websocket/network/responses/AllCoinsResponse.kt:23 | the strictly increasing positions of exactly the items that carry an id |
| AllCoinsDecoding.CollectedFollowsIds | app/src/main/java/com/valllent/websocket/network/responses/AllCoinsResponse.kt:17-29 | one coin per item with an id, in input order, named by the id and priced by `PriceOf`; items without id are skipped |
| AllCoinsDecoding.CollectedEmptyIff | app/src/main/java/com/valllent/websocket/network/responses/AllCoinsResponse.kt:26 | the collected list is empty exactly when no item has an id |
| AllCoinsDecoding.CollectedAppend | app/src/main/java/com/valllent/websocket/network/responses/AllCoinsResponse.kt:21-24 | each item is decoded on its own: decoding a concatenation concatenates the results |
| AllCoinsDecoding.ConvertToCoinList | app/src/main/java/com/valllent/websocket/network/responses/AllCoinsResponse.kt:17-29 | null exactly when no item (of a possibly null `data`) has an id; otherwise the non-empty collected list |
| MainScreen.Names | app/src/main/java/com/valllent/websocket/ui/screens/MainScreenViewModel.kt:99 | the names of the coins, position by position |
| MainScreen.IndexOfFirst | app/src/main/java/com/valllent/websocket/ui/screens/MainScreenViewModel.kt:99 | -1 exactly when the name is absent; otherwise the first position that holds the name |
| MainScreen.IndexOfFirstByNames | app/src/main/java/com/valllent/websocket/ui/screens/MainScreenViewModel.kt:99 | the lookup depends only on the names, so earlier writes (which keep names) do not move it |
| MainScreen.MergeOne | app/src/main/java/com/valllent/websocket/ui/screens/MainScreenViewModel.kt:99-100 | one write keeps the names of the snapshot |
| MainScreen.Merged | app/src/main/java/com/valllent/websocket/ui/screens/MainScreenViewModel.kt:98-104 | applying known updates in order never changes the names of the snapshot |
| MainScreen.KnownPrefix | app/src/main/java/com/valllent/websocket/ui/screens/MainScreenViewModel.kt:99-100 | the longest prefix of the updates whose names are all in the snapshot; the next update, if any, is unknown |
| MainScreen.KnownPrefixAt | app/src/main/java/com/valllent/websocket/ui/screens/MainScreenViewModel.kt:99-100 | up to that prefix, an update is known exactly when it lies before the prefix's end |
| MainScreen.AllKnownStep | app/src/main/java/com/valllent/websocket/ui/screens/MainScreenViewModel.kt:98-100 | one more known update extends the known prefix |
| MainScreen.MergeStep | app/src/main/java/com/valllent/websocket/ui/screens/MainScreenViewModel.kt:98-100 | one more loop iteration is one more write on the merge so far |
| MainScreen.UpdateStep | app/src/main/java/com/valllent/websocket/ui/screens/MainScreenViewModel.kt:98-100 | when `indexOfFirst` finds the name, the update lies inside the known prefix and the write extends the merge by that update |
| MainScreen.UpdateStops | app/src/main/java/com/valllent/websocket/ui/screens/MainScreenViewModel.kt:99-100 | when `indexOfFirst` returns -1, the known prefix ends at that update and not every update is known |
| MainScreen.HistoryStep | app/src/main/java/com/valllent/websocket/ui/screens/MainScreenViewModel.kt:101-103 | after one more update the chart history holds exactly the prices sent by the updates so far |
| MainScreen.Sent | app/src/main/java/com/valllent/websocket/ui/screens/MainScreenViewModel.kt:101-103 | what one update passes to `savePrice`: its price when it names bitcoin, nothing otherwise |
| MainScreen.BitcoinPrices | app/src/main/java/com/valllent/websocket/ui/screens/MainScreenViewModel.kt:98-103 | the prices a list of updates passes to `savePrice`, in order |
| MainScreen.BitcoinStep | app/src/main/java/com/valllent/websocket/ui/screens/MainScreenViewModel.kt:101-103 | one more update reaches `savePrice` exactly when it names bitcoin |
| MainScreen.LastFor | app/src/main/java/com/valllent/websocket/ui/screens/MainScreenViewModel.kt:98-100 | the last update in a list that carries a given name, if any: the one whose write survives |
| MainScreen.MergedAt | app/src/main/java/com/valllent/websocket/ui/screens/MainScreenViewModel.kt:97-107 | entry by entry: the first entry of a name takes the LAST update for it, and every other entry keeps its value |
| MainScreen.MergedKeepsNames | app/src/main/java/com/valllent/websocket/ui/screens/MainScreenViewModel.kt:97-107 | the merge keeps the snapshot's length and the name at every position |
| MainScreen.BitcoinPricesAppend | app/src/main/java/com/valllent/websocket/ui/screens/MainScreenViewModel.kt:101-103 | the bitcoin prices of consecutive batches are the concatenation of each batch's bitcoin prices |
| MainScreen.BitcoinPricesOne | app/src/main/java/com/valllent/websocket/ui/screens/MainScreenViewModel.kt:101-103 | a single update sends its price to the chart exactly when it names bitcoin |
| MainScreen.BitcoinPricesSnoc | app/src/main/java/com/valllent/websocket/ui/screens/MainScreenViewModel.kt:101-103 | one more update at the end adds exactly what that update sends to the chart |
| MainScreen.OneBitcoinUpdate | app/src/main/java/com/valllent/websocket/ui/screens/MainScreenViewModel.kt:97-107 | on a bitcoin-plus-other snapshot, a bitcoin update is known, replaces only the bitcoin entry and sends its price to the chart |
| MainScreen.MainScreenViewModel.constructor | app/src/main/java/com/valllent/websocket/ui/screens/MainScreenViewModel.kt:50-58 | the default state is Loading, Disconnected and no chart data, with no coins, callback or job yet |
| MainScreen.MainScreenViewModel.LoadAllCoins | app/src/main/java/com/valllent/websocket/ui/screens/MainScreenViewModel.kt:63-65 | loading starts by showing Loading |
| MainScreen.MainScreenViewModel.AllCoinsFetched | app/src/main/java/com/valllent/websocket/ui/screens/MainScreenViewModel.kt:67-75 | a null download shows LoadingFailed and changes nothing else; otherwise the coins are appended, shown as Downloaded, and the stream is opened |
| MainScreen.MainScreenViewModel.StartLineGraphCalculations | app/src/main/java/com/valllent/websocket/ui/screens/MainScreenViewModel.kt:111-123 | the previous chart job is cancelled before the new one starts, so exactly one runs |
| MainScreen.MainScreenViewModel.CreateUpdatesConnection | app/src/main/java/com/valllent/websocket/ui/screens/MainScreenViewModel.kt:79-85 | the chart job is restarted and the state becomes Connected with one more open stream |
| MainScreen.MainScreenViewModel.UpdatePrices | app/src/main/java/com/valllent/websocket/ui/screens/MainScreenViewModel.kt:97-107 | succeeds iff every update names a known coin; the snapshot becomes the in-order merge of the applied updates, and exactly their bitcoin prices, in order, are saved to the chart |
| MainScreen.MainScreenViewModel.WriteUpdate | app/src/main/java/com/valllent/websocket/ui/screens/MainScreenViewModel.kt:100-103 | one loop body: the write at the found index, and a bitcoin price appended to the chart history |
| MainScreen.MainScreenViewModel.PricesReceived | app/src/main/java/com/valllent/websocket/ui/screens/MainScreenViewModel.kt:86-89 | a message is merged and the merged snapshot is published as Downloaded; if the merge fails, the updates before the unknown name stay applied and the published coins state is unchanged |
| MainScreen.MainScreenViewModel.GraphTick | app/src/main/java/com/valllent/websocket/ui/screens/MainScreenViewModel.kt:114-119 | a tick publishes the chart data of the manager's current window |
| MainScreen.MainScreenViewModel.UpdatesStreamEnded | app/src/main/java/com/valllent/websocket/ui/screens/MainScreenViewModel.kt:90-93 | the chart job is cancelled, the state becomes Disconnected, and a network callback is registered; this may run after `onCleared` |
| MainScreen.MainScreenViewModel.ReconnectWhenInternetReturn | app/src/main/java/com/valllent/websocket/ui/screens/MainScreenViewModel.kt:125-138 | a callback is registered only if none exists, so registration happens at most once |
| MainScreen.MainScreenViewModel.NetworkAvailable | app/src/main/java/com/valllent/websocket/ui/screens/MainScreenViewModel.kt:144-152 | the network returning recreates the connection: Connected again with a running chart job |
| MainScreen.MainScreenViewModel.OnCleared | app/src/main/java/com/valllent/websocket/ui/screens/MainScreenViewModel.kt:42-47 | the callback is unregistered exactly when one was registered |
| MainScreen.SeedThenUpdate | app/src/main/java/com/valllent/websocket/ui/screens/MainScreenViewModel.kt:63-107 | from a new view model: a downloaded snapshot of bitcoin and ethereum and one bitcoin update give a Connected screen whose bitcoin entry alone changed and whose chart history is that price |
| MainScreen.DropThenReconnect | app/src/main/java/com/valllent/websocket/ui/screens/MainScreenViewModel.kt:90-93 | a stream end followed by the network returning gives Connected with a running chart job, and keeps the snapshot, the coins state and the chart history (no re-seeding) |
| MainScreen.ClearedThenStreamEnds | app/src/main/java/com/valllent/websocket/ui/screens/MainScreenViewModel.kt:42-47 | teardown with an open stream and no callback yet: the stream end that follows registers a callback after `onCleared`, and no later call unregisters it |

## Left out

- `toFloatOrNull` is a parameter `parse`. Kotlin's float grammar and 32-bit `Float` rounding are not modelled; prices are exact reals.
- Network I/O is not modelled: the Ktor client, the WebSocket, JSON decoding and the `CoinsRepository` error handling (`CoinsRepository` is not part of this model). The download result enters as the argument of `AllCoinsFetched`, and each stream message as the argument of `PricesReceived`.
- Coroutines, dispatchers and thread safety are not modelled (`ConcurrentLinkedDeque`, updates racing with chart ticks). Every coroutine segment is an atomic event method. The chart loop's one-second `delay` is replaced by a `GraphTick` event that the caller fires while the job runs.
- `CreateUpdatesConnection`: the launched coroutine's start, up to the `Connected` update, is folded into this method. Fetching the flow is not modelled.
- `retryFirstLoading` and `recreateUpdatesConnection` are not modelled as members of their own. Each only forwards to `LoadAllCoins` or `CreateUpdatesConnection`.
- `MainScreen.MainScreenViewModel.UpdatePrices`: in the source, an update naming an unknown coin throws from `allCoins[-1]`, and the exception escapes the stream collector. The model stops at that update, keeps the updates applied before it and returns `ok = false`. In the source the repository's catch-all then ends the stream, so the caller follows a failed `PricesReceived` with `UpdatesStreamEnded`. The model leaves that sequencing to the caller.
- `Downloaded(allCoins)` shares the mutable list with the view model, so later in-place writes show through it. The model stores a copy (value semantics) and republishes it explicitly. The aliasing itself is not modelled.
- `ConnectivityManager`, `NetworkRequest` and the `WeakReference` in the callback are not modelled. The callback is a boolean field, and the platform's calls to `onAvailable` are the `NetworkAvailable` event.
- The Compose UI and the Canvas drawing of the chart (`MainScreenView.kt` beyond its state types) are not modelled.
- Cancelling the view model's scope on teardown is not modelled as stopping the chart job. Its effect on the update stream is modelled: the stream ends, and `UpdatesStreamEnded` then runs, which cancels the job.
