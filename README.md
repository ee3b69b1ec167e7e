# StocksPWA watch-list core in Dafny

StocksPWA is a browser app that tracks a watch list of stock symbols. For
each symbol it keeps the latest price, a price history and an optional alert
price. Prices arrive from the Finnhub trade stream (a WebSocket) or from
polling Finnhub's quote endpoint.

This project models the state logic behind that watch list and proves what
it guarantees:

- **`FinnhubWebSocket`** (`src/hooks/useFinnhubWebSocket.ts`): the streaming store.
  - its reducer and `getInitialState`;
  - the guarded `addSymbol`/`removeSymbol`, with the subscribe and unsubscribe frames they send;
  - resubscription when the socket opens;
  - decoding of inbound trade frames into price updates;
  - the storage write after every change.
  The store is a class over the watch list, the log of frames sent and the `"stock_data"` storage entry.
- **`FinnhubQuotes`** (`src/hooks/useFinnhubQuotes.ts`): the polling store.
  - its reducer, including `INIT_FROM_STORAGE`;
  - the unguarded `addSymbol`/`removeSymbol`;
  - the storage gate (`stocksInitialized`);
  - one pass of `fetchAllQuotes`.
- **`StockChart`** (`src/components/StockChart/StockChart.tsx`): the chart data.
  - one sorted, de-duplicated time axis over all histories;
  - labels, and one dataset per record;
  - round-robin colours;
  - gaps where a record has no point.
- **`StockCard`** (`src/components/TopCards/StockCard.tsx`): the values a card derives.
  - the price shown and the change against the previous point;
  - the direction arrow;
  - the alert classification with its colours.
- **`Layout`** (`src/components/Layout/Layout.tsx`): `handleAddDefaultStocks`, which replaces the watch list by the configured default symbols.
- **`StocksProvider`** (`src/providers/StocksProvider.tsx`): how defaults are seeded on a first visit.
  - parsing of the configured list;
  - the seeding condition.

Shared modules:

- **`Records`**: JavaScript objects used as dictionaries. Each one is a map plus its key enumeration order. A spread keeps an existing key in its place and appends a new one; `delete` closes the gap.
- **`Text`**: `split`, `trim` and `filter` on strings.
- **`StockTypes`**: the record and action types.
- **`Wrappers`**: `Option`.

The clock (`Date.now()`), the configured symbol list, quote answers and locale formatting of times are parameters.

`ADD_SYMBOL` with price 0 stores `latestPrice: 0` with an empty history, because `0` is falsy (src/hooks/useFinnhubWebSocket.ts:19-27). So the model proves `PriceConsistent` only for a non-empty history: such a history ends with the latest price.

The code keeps no 200-point history cap, no staleness refetch and no threshold notification, and the model adds none.

The two default-list parsers differ, and the model keeps the difference. Layout's handler keeps empty pieces, so a trailing comma in the configured list makes it track the empty symbol `""`. The provider filters empty pieces out. `StocksProvider.ParseDefaultSymbols` states how the two lists relate.

## Model

| member | source | states |
|---|---|---|
| Records.Put | src/hooks/useFinnhubWebSocket.ts:17-28 | `{...r, [k]: v}` maps `k` to `v`, leaves every other key alone and keeps the object well formed (each key enumerates once) |
| Records.Delete | src/hooks/useFinnhubWebSocket.ts:31-32 | deleting a key from a copy removes exactly that key and keeps the object well formed |
| Records.WithoutAt | src/hooks/useFinnhubWebSocket.ts:31-32 | deleting the key at position `i` closes its gap: the other keys keep their relative order |
| Records.Values | src/components/StockChart/StockChart.tsx:37 | `Object.values` lists the records in key order, one per key |
| StockTypes.Seconds | src/hooks/useFinnhubWebSocket.ts:24 | `Math.floor(ms / 1000)` is the whole second containing `ms`: `s*1000 <= ms < s*1000 + 1000` |
| Text.Split | src/components/Layout/Layout.tsx:22 | `split(",")` yields one more piece than there are commas, and no piece contains a comma |
| Text.SplitJoin | src/components/Layout/Layout.tsx:22 | splitting loses nothing: joining the pieces with the separator gives the input back |
| Text.Trim | src/components/Layout/Layout.tsx:22 | `trim()` yields a contiguous piece of the input that neither starts nor ends with whitespace, and only whitespace was cut off either end |
| Text.KeepNonEmpty | src/providers/StocksProvider.tsx:14 | the filter keeps exactly the non-empty pieces |
| Text.KeepNonEmptySingle | src/providers/StocksProvider.tsx:14 | a single piece is kept exactly when it is non-empty |
| Text.KeepNonEmptyAppend | src/providers/StocksProvider.tsx:14 | filtering two lists joined is filtering each, joined: the kept pieces keep their order |
| Text.TrimAll | src/components/Layout/Layout.tsx:22 | `map(s => s.trim())` trims each piece in place, keeping their number and order |
| FinnhubWebSocket.GetInitialState | src/hooks/useFinnhubWebSocket.ts:6-10 | a stored watch list is loaded as it is; nothing stored gives `{}`; a well-formed stored list gives a well-formed state |
| FinnhubWebSocket.NewRecord | src/hooks/useFinnhubWebSocket.ts:19-27 | a truthy fetched price gives a one-point history stamped with the current second and an update time; a missing or zero price gives an empty history and no update time; the record is price-consistent |
| FinnhubWebSocket.Reduce | src/hooks/useFinnhubWebSocket.ts:12-61 | the reducer touches only the action's symbol, ignores `INIT_FROM_STORAGE`, and keeps the watch list well formed, keyed by symbol and price-consistent |
| FinnhubWebSocket.Updated | src/hooks/useFinnhubWebSocket.ts:39-55 | the updated record has one more point after the unchanged history, with the new price and the trade's time or else the current second; the latest price is the new one, the update time is now, symbol and alert are kept, and it is price-consistent |
| FinnhubWebSocket.AddInstallsRecord | src/hooks/useFinnhubWebSocket.ts:14-29 | `ADD_SYMBOL` files the new record under its symbol; a new symbol enumerates last, a tracked one keeps its place |
| FinnhubWebSocket.RemoveDropsKey | src/hooks/useFinnhubWebSocket.ts:30-34 | `REMOVE_SYMBOL` drops exactly that key and closes its gap; an untracked symbol leaves the state unchanged |
| FinnhubWebSocket.UpdateUntrackedIsNoop | src/hooks/useFinnhubWebSocket.ts:35-37 | `UPDATE_PRICE` for an untracked symbol returns the state unchanged |
| FinnhubWebSocket.UpdateTrackedAppends | src/hooks/useFinnhubWebSocket.ts:35-57 | for a tracked symbol it appends exactly one point after the unchanged history, stamped with the given time or else the current second; keys keep their order |
| FinnhubWebSocket.ApplyAll | src/hooks/useFinnhubWebSocket.ts:92-100 | dispatching any sequence of actions keeps the watch list well formed |
| FinnhubWebSocket.TradeUpdates | src/hooks/useFinnhubWebSocket.ts:91-100 | a trade payload gives one `UPDATE_PRICE` per trade, in order, with its symbol, its price and the time `floor(t/1000)` |
| FinnhubWebSocket.FrameUpdates | src/hooks/useFinnhubWebSocket.ts:91-100 | only a `"trade"` frame whose data is an array yields updates, those of its trades; any other frame yields none |
| FinnhubWebSocket.TradesAppendInOrder | src/hooks/useFinnhubWebSocket.ts:87-102 | a trade frame keeps the keys and their order, never brings back an untracked symbol, and appends to each tracked history exactly that symbol's trades in arrival order, with the latest price set to the last of them |
| FinnhubWebSocket.Subscriptions | src/hooks/useFinnhubWebSocket.ts:76-78 | one subscribe frame per symbol, for that symbol, in order |
| FinnhubWebSocket.SubscriptionsCount | src/hooks/useFinnhubWebSocket.ts:76-78 | one subscribe frame per distinct symbol, and no unsubscribe frame |
| FinnhubWebSocket.ResubscribesEachTrackedOnce | src/hooks/useFinnhubWebSocket.ts:74-79 | on open, every tracked symbol is subscribed exactly once and no other symbol at all |
| FinnhubWebSocket.AddActions | src/hooks/useFinnhubWebSocket.ts:108-109 | a run of successful `addSymbol` calls dispatches one `ADD_SYMBOL` per symbol, in order, with no alert and that symbol's fetched price |
| FinnhubWebSocket.AddOneEffect | src/hooks/useFinnhubWebSocket.ts:14-29 | adding an untracked symbol appends its key, keeps every old record and installs the record built from its fetched price |
| FinnhubWebSocket.AddActionsEffect | src/hooks/useFinnhubWebSocket.ts:14-29 | adding distinct untracked symbols appends them in order, keeps every old record and installs for each the record built from its fetched price |
| FinnhubWebSocket.FirstNewMembership | src/hooks/useFinnhubWebSocket.ts:106 | a run of guarded `addSymbol` calls adds exactly the offered symbols that were not tracked |
| FinnhubWebSocket.FirstNewDistinct | src/hooks/useFinnhubWebSocket.ts:106 | no symbol is added twice in one run |
| FinnhubWebSocket.FirstNewAgree | src/hooks/useFinnhubWebSocket.ts:106 | which symbols a run adds depends only on whether each offered symbol was tracked |
| FinnhubWebSocket.AddRunEffect | src/hooks/useFinnhubWebSocket.ts:104-115 | after a run of `addSymbol` calls the keys are the old ones followed by the added ones, the offered symbols are tracked as well as the old ones, old records are untouched and each added symbol holds the record built from its fetched price |
| FinnhubWebSocket.AddRunRecords | src/hooks/useFinnhubWebSocket.ts:104-115 | after a run of `addSymbol` calls the keys are the old ones followed by the added ones, and every record is the old one or, for an added symbol, the one built from its fetched price |
| FinnhubWebSocket.OfferStep | src/hooks/useFinnhubWebSocket.ts:104-115 | one more `addSymbol` call leaves its symbol tracked; when the symbol was new the run's added symbols grow by it and the state by its `ADD_SYMBOL` |
| FinnhubWebSocket.OfferNext | src/hooks/useFinnhubWebSocket.ts:104-115 | one more `addSymbol` call keeps the store equal to the run's `ADD_SYMBOL` actions applied to the start state, and its frames equal to their subscribe frames |
| FinnhubWebSocket.StreamingStore.constructor | src/hooks/useFinnhubWebSocket.ts:6-10 | mounting loads the stored watch list, or `{}` when nothing is stored, and storage then holds it |
| FinnhubWebSocket.StreamingStore.Dispatch | src/hooks/useFinnhubWebSocket.ts:64-69 | each dispatch applies the reducer, and storage is rewritten with the new watch list |
| FinnhubWebSocket.StreamingStore.AddSymbol | src/hooks/useFinnhubWebSocket.ts:104-115 | returns true exactly when the symbol was not tracked; a refusal changes nothing and sends nothing; a success dispatches `ADD_SYMBOL` with the fetched price and sends one subscribe frame |
| FinnhubWebSocket.StreamingStore.RemoveSymbol | src/hooks/useFinnhubWebSocket.ts:117-125 | an untracked symbol changes nothing and sends nothing; a tracked one is removed and gets one unsubscribe frame |
| FinnhubWebSocket.StreamingStore.OnOpen | src/hooks/useFinnhubWebSocket.ts:74-79 | sends a subscribe frame for every tracked key in key order and changes no state |
| FinnhubWebSocket.StreamingStore.OnMessage | src/hooks/useFinnhubWebSocket.ts:87-102 | a `"trade"` frame with an array payload dispatches one update per trade, in order, stamped `floor(t/1000)`; any other frame changes nothing |
| FinnhubQuotes.Reduce | src/hooks/useFinnhubQuotes.ts:7-49 | `INIT_FROM_STORAGE` replaces the watch list; the other actions touch only their symbol and keep it well formed, keyed by symbol and price-consistent |
| FinnhubQuotes.Polled | src/hooks/useFinnhubQuotes.ts:29-45 | the updated record has one more point after the unchanged history, with the new price and the current second; the latest price is the new one, `lastUpdateTime`, symbol and alert are kept, and it is price-consistent |
| FinnhubQuotes.AddInstallsFreshRecord | src/hooks/useFinnhubQuotes.ts:11-23 | `ADD_SYMBOL` always installs a fresh record with no price and no history, so re-adding a tracked symbol wipes its history |
| FinnhubQuotes.RemoveDeletesOnlyThatKey | src/hooks/useFinnhubQuotes.ts:24-28 | `REMOVE_SYMBOL` deletes exactly that key |
| FinnhubQuotes.UpdateAppendsCurrentSecond | src/hooks/useFinnhubQuotes.ts:29-45 | an update ignores an untracked symbol; for a tracked one it appends one point stamped with the current second and sets the latest price, leaving `lastUpdateTime` alone; a supplied timestamp makes no difference |
| FinnhubQuotes.Usable | src/hooks/useFinnhubQuotes.ts:84-96 | an answer is used only when it is a 200 with a numeric `c`; a thrown request or another status is skipped |
| FinnhubQuotes.PollUpdates | src/hooks/useFinnhubQuotes.ts:84-96 | a pass dispatches at most one update per polled symbol |
| FinnhubQuotes.PollUpdatesShape | src/hooks/useFinnhubQuotes.ts:87-91 | every update of a pass is an `UPDATE_PRICE` without timestamp for a polled symbol whose answer was a 200 with a numeric `c`, carrying that `c` |
| FinnhubQuotes.PollUpdatesPerSymbol | src/hooks/useFinnhubQuotes.ts:84-96 | a pass dispatches only `UPDATE_PRICE`, with exactly one for each symbol whose answer is a 200 with a numeric `c`, carrying that price; failed requests are skipped without stopping the pass |
| FinnhubQuotes.PollUpdatesEffect | src/hooks/useFinnhubQuotes.ts:81-97 | a pass over distinct symbols keeps keys and order, polls each listed symbol with a usable answer once, and leaves every other record untouched |
| FinnhubQuotes.PollPassEffect | src/hooks/useFinnhubQuotes.ts:81-97 | over the whole watch list: each tracked symbol with a usable answer gets exactly one new point, and nothing is added or removed |
| FinnhubQuotes.PollingStore.constructor | src/hooks/useFinnhubQuotes.ts:52-64 | the state starts as `{}`; a stored watch list is loaded and opens the storage gate, otherwise the gate stays shut |
| FinnhubQuotes.PollingStore.Dispatch | src/hooks/useFinnhubQuotes.ts:66-70 | storage follows the watch list while the gate is open and is never written while it is shut |
| FinnhubQuotes.PollingStore.AddSymbol | src/hooks/useFinnhubQuotes.ts:72-74 | dispatches `ADD_SYMBOL` whether or not the symbol is tracked |
| FinnhubQuotes.PollingStore.RemoveSymbol | src/hooks/useFinnhubQuotes.ts:76-78 | dispatches `REMOVE_SYMBOL` unconditionally |
| FinnhubQuotes.PollingStore.FetchAllQuotes | src/hooks/useFinnhubQuotes.ts:81-97 | requests every tracked symbol once, in key order (none for an empty list), and the new state is the pass's updates applied in that order |
| StockChart.Stamps | src/components/StockChart/StockChart.tsx:45 | a history's timestamps are exactly the times at which it has a point |
| StockChart.AllTimestamps | src/components/StockChart/StockChart.tsx:45 | the flattened timestamps are exactly those occurring in some history |
| StockChart.Insert | src/components/StockChart/StockChart.tsx:45 | inserting into a strictly increasing axis keeps it strictly increasing and adds exactly that time |
| StockChart.SortedUnique | src/components/StockChart/StockChart.tsx:45 | de-duplicating and sorting numerically gives a strictly increasing sequence of exactly the input's values |
| StockChart.PriceMap | src/components/StockChart/StockChart.tsx:53 | the time-to-price map gives, for each time, the price of the last point at that time, and nothing for a time without a point |
| StockChart.Series | src/components/StockChart/StockChart.tsx:54 | one entry per axis point: the last price at that time, or a gap |
| StockChart.Axis | src/components/StockChart/StockChart.tsx:45 | the shared time axis is strictly increasing |
| StockChart.AxisIsSortedTimestampSet | src/components/StockChart/StockChart.tsx:45 | the axis is strictly increasing and holds exactly the times at which some tracked record has a point |
| StockChart.BuildChart | src/components/StockChart/StockChart.tsx:36-67 | an empty watch list gives no labels and no datasets; otherwise one formatted label per axis point, and one dataset per record in key order with the record's symbol, colour `i % 5`, and the last price or a gap at each axis point |
| StockCard.ChangePercent | src/components/TopCards/StockCard.tsx:20 | with a non-zero previous price the change is the finite `p` with `p * prev == (c - prev) * 100`; with a zero previous price it is `Infinity`, `-Infinity` or `NaN` as the price rose, fell or stayed at 0 |
| StockCard.AtLeastZero | src/components/TopCards/StockCard.tsx:34 | `change >= 0` holds for a finite non-negative change and for `Infinity`, and fails for a negative one, `-Infinity` and `NaN` |
| StockCard.QuotientSign | src/components/TopCards/StockCard.tsx:20 | the change `(c - p) / p * 100` is non-negative exactly when the price has not fallen (`p > 0`) or has not risen (`p < 0`) |
| StockCard.View | src/components/TopCards/StockCard.tsx:15-34 | the price shown is the latest price or 0; with under two points the change is 0 and the arrow is up; otherwise the arrow is up exactly when the change against the second-to-last price is non-negative, with division by zero as in JavaScript; with no alert the card is neutral; with one it is "above" exactly when the price has reached the alert and "below" exactly when it has not |
| Layout.DefaultSymbols | src/components/Layout/Layout.tsx:22 | an unset list gives no symbols; a set one gives, for each comma-separated piece in order, that piece trimmed, empty pieces kept |
| Layout.Removals | src/components/Layout/Layout.tsx:24-28 | the first loop only ever removes |
| Layout.Additions | src/components/Layout/Layout.tsx:30-34 | the second loop only ever adds |
| Layout.Reconcile | src/components/Layout/Layout.tsx:24-34 | every removal is issued before any addition |
| Layout.RemovalCounts | src/components/Layout/Layout.tsx:24-28 | each tracked key that is not a default is removed exactly once; nothing else is removed |
| Layout.AdditionCounts | src/components/Layout/Layout.tsx:30-34 | each default not tracked at the start is added once per occurrence in the list; a tracked one is never added |
| Layout.ReconcileCallCounts | src/components/Layout/Layout.tsx:21-35 | over a run, the removal and addition counts above hold together, and no symbol is both removed and added |
| Layout.NonDefaultsMembership | src/components/Layout/Layout.tsx:24-28 | the keys the first loop targets are exactly the tracked keys that are not defaults |
| Layout.KeptMembership | src/components/Layout/Layout.tsx:24-28 | the keys the first loop leaves are exactly the tracked keys that are defaults |
| Layout.KeptDistinct | src/components/Layout/Layout.tsx:24-28 | the keys left after the first loop enumerate once each |
| Layout.PrunedWf | src/components/Layout/Layout.tsx:24-28 | after the first loop the watch list is well formed and holds exactly the tracked defaults |
| Layout.Frames | src/components/Layout/Layout.tsx:26 | each removal sends one unsubscribe frame and each addition one subscribe frame, for the same symbol, in call order |
| Layout.FramesAppend | src/components/Layout/Layout.tsx:24-34 | the frames of two runs of calls are the frames of each, one after the other |
| Layout.AdditionFrames | src/components/Layout/Layout.tsx:30-34 | for a list naming each symbol once, the second loop's frames are one subscribe frame per default not tracked at the start, in list order |
| Layout.PruneNext | src/components/Layout/Layout.tsx:25-27 | one pass of the first loop removes its key exactly when it is not a default, closing its gap, and sends that key's unsubscribe frame |
| Layout.RemoveNonDefaults | src/components/Layout/Layout.tsx:24-28 | the first loop makes exactly the calls of `Removals`; afterwards the keys are the old defaults in their old order, their records untouched, and one unsubscribe frame was sent per removal |
| Layout.AddMissingNext | src/components/Layout/Layout.tsx:31-33 | one pass of the second loop adds its symbol, with no alert and its fetched price, exactly when it was not tracked at the start, and sends its subscribe frame |
| Layout.AddMissingDefaults | src/components/Layout/Layout.tsx:30-34 | the second loop makes exactly the calls of `Additions`; afterwards the state is the earlier one with one `ADD_SYMBOL` (no alert, fetched price) per missing default in list order, and one subscribe frame was sent for each |
| Layout.ReconciledState | src/components/Layout/Layout.tsx:21-35 | after the handler the watch list is well formed, its keys are the kept defaults in their old order followed by the missing defaults in list order, exactly the defaults are tracked, kept records are untouched and each added one is the record built from its fetched price |
| Layout.HandlerFrames | src/components/Layout/Layout.tsx:24-34 | for a list naming each symbol once, the handler's frames are the frames of its calls: unsubscribes for the removals, then subscribes for the missing defaults |
| Layout.ReplaceByDefaults | src/components/Layout/Layout.tsx:24-34 | both loops together make the calls of `Reconcile` on the list as it was at the start, leave the state `ReconciledState` describes, and send the unsubscribe frames, then the subscribe frames of the missing defaults |
| Layout.HandleAddDefaultStocks | src/components/Layout/Layout.tsx:21-35 | the handler, on the configured list, makes exactly the calls of `Reconcile` on the list as it was at the start, leaves the state `ReconciledState` describes and sends the frames of those calls |
| StocksProvider.ParseDefaultSymbols | src/providers/StocksProvider.tsx:10-14 | an unset list gives none; every parsed symbol is non-empty, trimmed and comma-free; the symbols are exactly the non-empty entries of Layout's list |
| StocksProvider.PiecesOfUnset | src/providers/StocksProvider.tsx:10-14 | an unset variable reads as `''`, which parses to no symbols; a set one splits and trims as in Layout |
| StocksProvider.ShouldSeed | src/providers/StocksProvider.tsx:9 | seeding is considered only for an empty watch list and only when storage read nothing; any stored item, even `""`, prevents it |
| StocksProvider.OfferAt | src/providers/StocksProvider.tsx:16-18 | the `forEach` callback for one more configured symbol keeps the store equal to the run's `ADD_SYMBOL` actions so far applied to the start state, and its frames equal to their subscribe frames |
| StocksProvider.AddEach | src/providers/StocksProvider.tsx:16-18 | the state is the old one with one `ADD_SYMBOL` (no alert, the fetched price) applied per new symbol: the keys grow by the new symbols in order, every old record is kept unchanged, each new one is the record built from its fetched price, and each new symbol gets exactly one subscribe frame |
| StocksProvider.SeedIfEmpty | src/providers/StocksProvider.tsx:8-19 | it seeds exactly when the watch list is empty and storage read nothing; seeding makes the watch list the distinct parsed defaults in order, each with no alert and its fetched price, each subscribed once; otherwise nothing changes |
| StocksProvider.Mount | src/providers/StocksProvider.tsx:6-9 | as written, with the store's storage effect running first: nothing is ever seeded, whatever was stored and whatever defaults are configured |
| StocksProvider.MountSeedingFirstVisit | src/providers/StocksProvider.tsx:8-19 | deciding on storage as read before mounting: a first visit tracks the distinct parsed defaults, each with no alert and its fetched price and subscribed once, and a returning visit keeps what was stored and sends nothing |
| StocksProvider.FirstVisitTracksDefaults | src/providers/StocksProvider.tsx:9-18 | on a first visit the tracked symbols are exactly the non-empty configured defaults |

## Left out

- JSON: serialising and parsing storage and frames is not modelled. Storage holds a watch list value, and a frame is its parsed `type` and `data` fields.
  - `JSON.parse` throwing on malformed input is left out.
  - A trade entry whose fields are missing or not numbers is left out.
  - The two hooks treat a stored empty string as "nothing stored", as their truthiness tests do (src/hooks/useFinnhubWebSocket.ts:8, src/hooks/useFinnhubQuotes.ts:59). The provider's check at src/providers/StocksProvider.tsx:9 tests `== null`, so there `""` counts as stored. The model's storage holds a watch list or nothing, so it cannot represent `""`: `StocksProvider.MountSeedingFirstVisit` receives a stored `""` as nothing stored and seeds, where the source's own check would see a stored item and not seed.
- The WebSocket transport is reduced to the log of frames handed to `sendMessage`. Left out:
  - connecting without an API key;
  - reconnection;
  - `onClose` logging.
- `fetchQuoteForSymbol` and the quote endpoint: their HTTP request is left out.
  - The streaming store receives the fetched price as a parameter of `AddSymbol`.
  - The polling store receives each symbol's answer as `quote`.
- Concurrency and React scheduling: each handler and effect runs to completion, one after another. A `dispatch` takes effect at once, and one clock reading `now` serves a whole event.
  - The 10-second polling interval, and the effect re-running on every change, are modelled as single passes (`FetchAllQuotes`).
  - The polling store's transient write of `{}` is left out. Between the two mount effects the gate is already open while the state is still `{}`; the next write restores the stored list. `PollingStore.constructor` shows only the state after mount.
- Layout.AddMissingDefaults: the source's `addSymbol` guard reads the watch list as it was when the component rendered, while the model's store reads the current one. The two differ only when the default list names a symbol twice. The source then dispatches `ADD_SYMBOL` and sends a subscribe frame twice; the model does so once.
- StocksProvider.AddEach: the same stale snapshot applies to the provider's `forEach`. A symbol named twice in the configured list is added and subscribed twice in the source, and once in the model.
- StocksProvider.AddEach: `forEach` does not await `addSymbol`, so the `ADD_SYMBOL` dispatches and subscribe frames happen in the order in which the quote fetches resolve. The model runs the calls one after another in list order, and the key order it proves is only one of the orders the source can produce.
- Floating point: prices are exact reals.
  - Rounding in the change percentage is left out; `StockCard.Percent` keeps only its sign class.
  - `NaN` or infinite prices and timestamps are left out.
  - A non-integer timestamp on the chart axis is left out.
- `toLocaleTimeString` is the `format` parameter of `StockChart.BuildChart`.
- Object keys: every symbol is an own property, and all keys enumerate in insertion order. Two JavaScript behaviours are left out:
  - symbols that name `Object.prototype` members (`constructor`, `__proto__`), for which `stocks[symbol]` is truthy without being tracked;
  - integer-like symbols such as `"123"`, which enumerate before the others.
- Rendering, the form, the notification module and the React context plumbing (`useStocks`, `StocksContext`) are not part of this model.
- The chart's drawing options (tension, point radii) are left out.

## Findings

| source | as written | input that shows it | evidently intended | confidence | as-written member | corrected member |
|---|---|---|---|---|---|---|
| src/providers/StocksProvider.tsx:9 | The seeding effect runs only when `localStorage.getItem("stock_data") == null`. The provider's own `useFinnhubWebSocket` call declares its storage effect first (src/hooks/useFinnhubWebSocket.ts:67-69), so on mount that effect has already written `"{}"` | first visit: nothing stored, `VITE_DEFAULT_STOCK_SYMBOLS = "AAPL,MSFT"`; the watch list stays empty | on a first visit (nothing stored before mounting), track the configured defaults | not executed; relies on React running one component's effects in declaration order | StocksProvider.Mount | StocksProvider.MountSeedingFirstVisit |
