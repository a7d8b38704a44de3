# Trading dashboard: feed, lookups and watchlist store

A Dafny model of the bookkeeping behind the trading dashboard `trading-eye-ui`. It has three parts.

- **The simulated push feed** (`StockWebSocket` in `src/services/stockApi.ts`). It holds:
  - a timer that is either running or absent (`interval`);
  - an ordered, duplicate-free subscription list (`watchlist`);
  - an ordered list of listeners (`callbacks`), each with a removal handle.

  One timer firing ("tick") does two things for each subscribed symbol, in order. It writes that symbol's next quote into the shared mock price table. Then it calls every listener, in order, with that quote tagged by the symbol.
- **The lookup functions** in the same file:
  - `getStockSymbols` maps the fixed ten-row table to listing records.
  - `searchSymbols` is a case-insensitive substring filter over that table.
  - `getQuote` looks a symbol up in the price table and synthesizes a quote around 100 when it is missing.
- **The watchlist store** (`StockProvider` in `src/contexts/StockContext.tsx`) and the watchlist panel's rules (`src/components/Watchlist.tsx`). The store keeps:
  - an ordered, duplicate-free watchlist;
  - a symbol → tagged-quote map, merged by whole-key replacement;
  - a selection;
  - a loading flag.

  The store keeps the feed subscribed to exactly its watchlist. The panel renders one card per watchlist symbol that has a quote. Its remove button hands the selection to the first other symbol of the watchlist as it was before the removal.

## Layout

- `common.dfy` (`Common`) holds the list helpers the three parts share:
  - `Without`, which is the `filter(y => y !== x)` idiom;
  - `AddIfAbsent`, which is the `includes`/`push` idiom;
  - duplicate-freedom and subsequence (order preservation), with lemmas about both.
- `stock_api.dfy` (`StockApi`) holds:
  - quotes, the mock table, the lookups and the search;
  - one tick as values: `NextQuote`, `TickPrices`, `Deliveries`;
  - the classes `MockPriceData` (the module-level price table that ticks overwrite in place) and `StockWebSocket`.
- `stock_context.dfy` (`StockContext`) holds the `StockProvider` class. Its methods are the store's callbacks and the asynchronous steps that complete later.
- `watchlist_view.dfy` (`WatchlistView`) holds the successor rule, the card list, the two click handlers and two end-to-end scenarios.

## Modelling conventions

- **Prices** are `real`. The random draws are parameters `rnd`: a `real` for one draw, or a `Symbol -> real` for one draw per symbol. The clock `Date.now()` is a parameter `now`.
- **JavaScript `x || y` on a number** is `Or(x, y)`: `x` when it is non-zero, else `y`. The tick's quote fields are written with these fallbacks exactly as the code has them. A missing previous entry (`undefined`) takes the branch with no previous quote.
- **Previous close.** Every quote in the price table has a non-zero previous close (`PcNonZero`). The tick keeps this true, which makes its percent-change division defined.
- **Re-running the store's feed effect.** The effect depends on the watchlist, so React re-runs it after every watchlist change. `ResyncFeed` models that re-run in two halves. Cleanup calls the removal handle, then disconnects. The new run connects, subscribes every watchlist symbol and registers a fresh listener `Listener(effectRuns)`. `AddToWatchlist` and `RemoveFromWatchlist` end with it.
- **Mounting.** The provider's constructor stands for mounting it. It sets the initial state and runs the synchronous parts of both effects.
- **Asynchronous completions are explicit steps:**
  - the timer firing is `FeedTick`;
  - the `getQuote` that `addToWatchlist` issued resolving is `ResolveFetch(k, …)`;
  - the initial bulk load settling is `InitialLoadResolved(failed, …)`.

  Each one reads the price table at the moment it runs. Any interleaving of those steps is a call order.

Three behaviours of the code that the model keeps as written:
- `removeFromWatchlist` keeps the removed symbol's quote entry; it is never purged.
- A listener that throws is not isolated from the others: nothing in the tick catches it.
- The selection hand-over on removal lives in the panel's click handler, not in the store.

## Model

| member | source | states |
|---|---|---|
| Common.Without | src/services/stockApi.ts:248-250 | the result holds every element other than `x`, holds only elements of the input, and none of them is `x` |
| Common.WithoutAbsent | src/services/stockApi.ts:248-250 | unsubscribing an absent symbol changes nothing |
| Common.WithoutIdempotent | src/services/stockApi.ts:254-256 | calling a removal handle a second time changes nothing |
| Common.WithoutIsSubsequence | src/services/stockApi.ts:248-250 | the elements that survive a removal keep their relative order |
| Common.WithoutNoDup | src/services/stockApi.ts:248-250 | removal keeps a duplicate-free list duplicate-free |
| Common.WithoutAt | src/services/stockApi.ts:248-250 | on a duplicate-free list, removing `xs[i]` cuts out exactly position `i` |
| Common.AddIfAbsent | src/services/stockApi.ts:242-246 | a present element leaves the list equal; an absent one is appended after the unchanged old list; duplicate-freedom is kept |
| StockApi.GenerateMockPrice | src/services/stockApi.ts:50-62 | previous close is the base; change is price minus previous close; percent change is change over previous close times 100; low ≤ price ≤ high, and low ≤ open ≤ high |
| StockApi.MockPriceBounds | src/services/stockApi.ts:51-53 | for a draw in [0, 1), the price moves at most 2.5% from a positive base and stays positive |
| StockApi.GetQuote | src/services/stockApi.ts:159-165 | a symbol in the table gets its stored quote; any other symbol gets a quote with previous close 100, low ≤ price ≤ high, stamped `now` |
| StockApi.MockPriceData.constructor | src/services/stockApi.ts:65-76 | the table holds exactly the ten base-price symbols, each with the mock quote generated from its base price |
| StockApi.ToStockSymbol | src/services/stockApi.ts:151-156 | description is the name, display symbol and symbol are the table symbol, type is "Common Stock" |
| StockApi.SymbolsOf | src/services/stockApi.ts:149-157 | one listing record per table row, at the same position |
| StockApi.StockSymbolsCount | src/services/stockApi.ts:36-47 | `getStockSymbols` lists ten records |
| StockApi.Lower | src/services/stockApi.ts:184-185 | lower-casing keeps the length and maps each character with `LowerChar` |
| StockApi.IncludesIff | src/services/stockApi.ts:184-185 | `includes` holds exactly when the needle occurs at some position of the haystack |
| StockApi.IncludedCharsOccur | src/services/stockApi.ts:184-185 | every character of an included needle occurs in the haystack |
| StockApi.SearchIn | src/services/stockApi.ts:179-193 | a record is in the result iff it is the listing record of a row whose lower-cased symbol or name contains the lower-cased query; each record has display symbol = symbol and type "Common Stock" |
| StockApi.SearchInTableOrder | src/services/stockApi.ts:182-192 | search results come in table order |
| StockApi.EmptyQueryListsAll | src/services/stockApi.ts:183-186 | the empty query returns every row's record, in order |
| StockApi.EmptySearchListsTable | src/services/stockApi.ts:179-193 | `searchSymbols("")` equals `getStockSymbols()` |
| StockApi.AbsentCharNoResults | src/services/stockApi.ts:183-186 | a query containing a character that no row's symbol or name contains gives the empty list |
| StockApi.NextQuote | src/services/stockApi.ts:209-224 | the new high is ≥ the new price and ≥ a set previous high; the new low is ≤ the new price and ≤ a set previous low; a previous entry's previous close is kept; the previous close is non-zero; the quote is stamped `now` |
| StockApi.TickPrices | src/services/stockApi.ts:208-224 | after a tick the keys are the old keys plus the subscriptions; each subscribed entry is its `TickQuote`, satisfies low ≤ price ≤ high, keeps its previous close, and has a high no lower and a low no higher than a set old high and low (running max/min); unsubscribed entries are unchanged |
| StockApi.Fanout | src/services/stockApi.ts:227-229 | one call per listener, in registration order, all with the same data |
| StockApi.DeliveriesLength | src/services/stockApi.ts:208-229 | a tick makes exactly (subscriptions × listeners) calls |
| StockApi.DeliveriesAt | src/services/stockApi.ts:208-229 | call number `i·L + j` goes to listener `j` with subscription `i`'s new quote tagged with that symbol |
| StockApi.DeliveriesOnlySubscribed | src/services/stockApi.ts:208-229 | every call carries a subscribed symbol, tagged onto its new quote |
| StockApi.DeliveriesCount | src/services/stockApi.ts:208-229 | on a duplicate-free subscription list, a symbol gets one call per listener if subscribed, and none otherwise |
| StockApi.StockWebSocket.constructor | src/services/stockApi.ts:197-202 | a fresh feed has no listeners, no timer and no subscriptions |
| StockApi.StockWebSocket.Connect | src/services/stockApi.ts:204-207 | a running timer is kept and nothing changes; otherwise a new timer with a fresh id starts; subscriptions and listeners are out of its frame |
| StockApi.StockWebSocket.Disconnect | src/services/stockApi.ts:235-240 | afterwards no timer runs, whether or not one did before; only the timer field may change |
| StockApi.StockWebSocket.Subscribe | src/services/stockApi.ts:242-246 | the subscription list becomes `AddIfAbsent` of the old one and stays duplicate-free |
| StockApi.StockWebSocket.Unsubscribe | src/services/stockApi.ts:248-250 | the subscription list becomes the old one with the symbol filtered out |
| StockApi.StockWebSocket.OnMessage | src/services/stockApi.ts:252-253 | the listener is appended last, and the handle refers to it |
| StockApi.StockWebSocket.Release | src/services/stockApi.ts:254-256 | the listener list becomes the old one with that listener filtered out |
| StockApi.StockWebSocket.Tick | src/services/stockApi.ts:207-231 | the table becomes `TickPrices` of the old table over the subscriptions; the calls made are `Deliveries` of the subscriptions and listeners, in order |
| StockApi.Notify | src/services/stockApi.ts:227-229 | the calls made are `Fanout` of the listeners |
| StockContext.Merge | src/contexts/StockContext.tsx:89-94 | the keys become the old keys plus the pushed symbol; the pushed symbol maps to the pushed data; every other entry is unchanged |
| StockContext.TickMerge | src/contexts/StockContext.tsx:89-94 | with one listener, applying a tick's calls sets each subscribed symbol to its new quote tagged with the symbol and keeps every other entry |
| StockContext.SubscribeAll | src/contexts/StockContext.tsx:84-86 | subscribing a list of symbols keeps the subscriptions duplicate-free |
| StockContext.SubscribeAllPresent | src/contexts/StockContext.tsx:84-86 | resubscribing symbols already subscribed changes nothing |
| StockContext.SubscribeAllFresh | src/contexts/StockContext.tsx:84-86 | subscribing a duplicate-free list on an empty feed gives that list |
| StockContext.RunFeedEffect | src/contexts/StockContext.tsx:79-94 | afterwards the feed is connected (keeping a running timer), subscribed to `SubscribeAll` of the list, and has the store's listener appended |
| StockContext.StockProvider.constructor | src/contexts/StockContext.tsx:42-94 | watchlist [AAPL, MSFT, GOOGL, AMZN], selection AAPL, no quotes, loading; the feed is connected, subscribed to exactly the watchlist, and has one listener |
| StockContext.StockProvider.ResyncFeed | src/contexts/StockContext.tsx:96-100 | after cleanup and re-run, the feed runs a fresh timer, stays subscribed to the watchlist, and has only the new listener |
| StockContext.StockProvider.AddToWatchlist | src/contexts/StockContext.tsx:102-118 | a present symbol: nothing changes and no fetch is issued; an absent symbol is appended and subscribed, and one fetch is queued; quotes and selection are unchanged; subscriptions stay equal to the watchlist |
| StockContext.StockProvider.RemoveFromWatchlist | src/contexts/StockContext.tsx:120-123 | the watchlist becomes the old one with the symbol filtered out, and the feed follows; quotes, selection, loading state and pending fetches are unchanged |
| StockContext.StockProvider.SetSelectedStock | src/contexts/StockContext.tsx:44 | the selection becomes the given value |
| StockContext.StockProvider.OnPush | src/contexts/StockContext.tsx:89-94 | quotes become `Merge` of the old quotes with the pushed data |
| StockContext.StockProvider.ResolveFetch | src/contexts/StockContext.tsx:111-116 | quotes become `Merge` with the fetched quote tagged with its symbol; that fetch leaves the pending list |
| StockContext.StockProvider.InitialLoadResolved | src/contexts/StockContext.tsx:50-72 | on success the keys are exactly the default watchlist, each mapped to its fetched quote tagged with its own symbol; on failure quotes are kept; either way loading ends |
| StockContext.StockProvider.Deliver | src/contexts/StockContext.tsx:89-94 | the quotes become the old quotes with every call addressed to the store's listener merged in order |
| StockContext.StockProvider.FeedTick | src/contexts/StockContext.tsx:89-94 | after a tick, each watchlist symbol maps to its new table quote tagged with the symbol; every other entry is kept; the table becomes `TickPrices` over the watchlist |
| WatchlistView.FindOther | src/components/Watchlist.tsx:50 | the index of the first symbol other than the removed one, or none when every symbol is the removed one |
| WatchlistView.Successor | src/components/Watchlist.tsx:50-52 | a successor is a non-empty symbol that survives the removal; with no other symbol the selection becomes null |
| WatchlistView.SuccessorIsFirstRemaining | src/components/Watchlist.tsx:50-52 | the successor is the first symbol of the filtered watchlist (null if there is none, or if it is the empty string) |
| WatchlistView.NullIffNoOther | src/components/Watchlist.tsx:50-52 | with non-empty symbols, the selection becomes null exactly when no other symbol exists |
| WatchlistView.Rendered | src/components/Watchlist.tsx:27-30 | a symbol gets a card iff it is in the watchlist and has a quote |
| WatchlistView.RenderedInOrder | src/components/Watchlist.tsx:27-30 | cards appear in watchlist order |
| WatchlistView.Cards | src/components/Watchlist.tsx:27-41 | one card per rendered symbol, showing that symbol's price, change and percent change, and marked selected iff it is the selection |
| WatchlistView.Render | src/components/Watchlist.tsx:22-27 | the empty-state message shows exactly when the watchlist is empty; otherwise the panel shows exactly the `Cards` list, one per rendered symbol |
| WatchlistView.HandleSelect | src/components/Watchlist.tsx:12-14 | a card click sets the selection to its symbol, whatever it was |
| WatchlistView.HandleRemove | src/components/Watchlist.tsx:46-53 | the store removes the symbol and the feed is re-synced (fresh listener); quotes, pending fetches and loading state are kept; removing the selection hands it to the successor in the watchlist as it was before the removal; any other selection is kept; a selection inside the watchlist stays inside it |
| WatchlistView.RemoveDefaultSelection | src/components/Watchlist.tsx:48-52 | on the default watchlist, removing AAPL leaves [MSFT, GOOGL, AMZN] with MSFT as successor |
| WatchlistView.RemoveSelectedScenario | src/components/Watchlist.tsx:48-53 | mount, load, then remove the selected AAPL: the watchlist is [MSFT, GOOGL, AMZN], the selection is MSFT, an AAPL quote is still held, and the subscriptions equal the watchlist |
| WatchlistView.AddTwiceScenario | src/contexts/StockContext.tsx:102-117 | adding TSLA twice after mounting: TSLA is in the watchlist and the subscriptions once, and one fetch is issued |

## Left out

- Floating point: prices are exact reals. NaN, infinities and rounding are not modelled, and `Or` treats only 0 as falsy. The division by a zero previous close cannot arise, because `PcNonZero` is kept as an invariant of the table.
- Randomness and the clock: `Math.random()` draws and `Date.now()` are inputs (`rnd`, `now`), not generated.
- `StockApi.LowerChar`: `toLowerCase` is modelled on ASCII letters only. Table symbols and names are ASCII.
- Lookups of inherited object keys such as `"constructor"` in `mockPriceData` are not modelled. The table is a plain map.
- Timers, `setTimeout` delays, promises and `Promise.all` are not modelled as time. A tick, a fetch completion and the initial load's completion are steps called in some order.
- `StockContext.StockProvider.InitialLoadResolved` reads the table once for all four symbols. In the code each of the four `getQuote` calls reads the table when it resolves.
- `StockContext.StockProvider.FeedTick` needs a connected feed. That holds by the store invariant. The timer restarting on every effect re-run is recorded only as a fresh timer id, without its phase.
- React rendering and batching: each store method sees the state left by the previous call, as after a re-render. The code's callbacks read the watchlist captured at the last render. So two `addToWatchlist` calls within one render would each start from the same old list, and the model does not capture that.
- A listener that throws would abort the rest of a tick. This is not modelled: the only listener is the store's merge, which does not throw.
- `StockApi.GetStockSymbols` and `StockApi.SearchSymbols` carry no contract of their own. Their properties are stated on `SymbolsOf` and `SearchIn`, which take the table as a parameter, and in `StockSymbolsCount` and `EmptySearchListsTable`.
- `getHistoricalData`, `generateMockHistoricalData`, `getNews` and the news list are not part of this model. They are random chart data and static data.
- The view-only components (`StockCard`, `StockDetails`, `StockChart`, `NewsSection`, `Header`, the index page) and the search bar's debounce and click-outside handling are not part of this model. `useStock`'s error outside a provider is not modelled either.
- Date, locale and number formatting are not modelled.
