# A verified model of the swiftviewer dashboard's decision rules

swiftviewer is a Next.js market dashboard. Users sign in, keep a watchlist of
stock and crypto symbols in a hosted `watchlist` table, browse stock and crypto
quotes with charts, and store display preferences.

The application is a thin layer over hosted services. This project models the
local logic lying between those services and the screen:

- **Middleware access decision.** Which requests are let through, sent to
  sign-in, or sent to the dashboard, and which paths the middleware sees at all.
- **Client auth flag and route guard.** The client-side auth flag and the
  guard that reads it.
- **Stand-alone watchlist table.** The table component's case-insensitive
  filter and its sign/colour rule.
- **Watchlist hook.**
  - The load query: the user's rows, newest first.
  - The insert and delete it sends.
  - Its `watchlist`/`loading`/`error` state.
- **The four dashboard pages.**
  - Membership and toggle.
  - Building the asset list from watchlist items and quote lookups.
  - The timeframe-to-days mapping.
  - The "select first" rules.
  - The search guards.
- **Settings page.** The preference merge by object spread, and the displayed
  defaults.
- **Response normalisation of the market-data client.** How provider JSON is
  turned into quotes, hits and chart points.

## How the model is built

**Modules.** There is one module per source file:

| Module | Source file |
|---|---|
| `Middleware` | `middleware.ts` |
| `RouteGuard` | `components/route-guard.tsx` |
| `Providers` | `components/providers.tsx` |
| `AssetFilter` | `components/Watchlist.tsx` |
| `WatchlistStore` | `hooks/useWatchlist.ts` |
| `Dashboard` | `app/dashboard/page.tsx` |
| `WatchlistPage` | `app/dashboard/watchlist/page.tsx` |
| `CryptoPage` | `app/dashboard/crypto/page.tsx` |
| `StocksPage` | `app/dashboard/stocks/page.tsx` |
| `Settings` | `app/settings/page.tsx` |
| `MarketApi` | `lib/api.ts` |

Four small helper modules sit beside them:

- `Wrappers`: `Option` and `Result`.
- `Seqs`: `filter`, `map`, `find`, `Promise.all` and `filter(Boolean)` on
  sequences, plus the subsequence relation.
- `Text`: ASCII case mapping, `startsWith` and `includes`.
- `Timeframe`: the crypto timeframe selector's days mapping, shared by two pages.

**Pure code and state.**

- **Pure rules** are functions and lemmas.
- **React state cells set by handlers** are fields of a class, one class per
  component. Its methods have `modifies` clauses, and their `ensures` give the
  whole new state in terms of the old state and the inputs. The classes are:
  - `AuthProvider`
  - `WatchlistHook`
  - `DashboardView`
  - `WatchlistPageView`
  - `CryptoPageView`
  - `StocksPageView`
  - `SettingsView`

**Hosted services.**

- **Market-data providers** are a value of `MarketApi.Endpoints`. It holds one
  total function per endpoint, from the request's parameters to the parsed
  reply or to a network failure. A handler receives one such snapshot and
  reads every reply from it.
- **The watchlist table** is a sequence of rows. The hook holds it in its
  `table` field.
- **The preferences table** is a sequence of rows passed to the fetch.
- **Store outcomes** (rows, null data, an error, an accepted or rejected
  mutation) are parameters.
- **The clock** is a parameter `nowMs`, in epoch milliseconds.
- **Dates** are UTC day numbers.

**Numbers.**

- Prices and changes are `real`.
- Timestamps are integers.

**Assumption about pathnames.** A pathname never contains a line terminator,
because URL parsing removes or percent-encodes them. So the regular-expression
`.` in the matcher is modelled as matching any character.

## Model

| member | source | states |
|---|---|---|
| Middleware.Decide | middleware.ts:20-34 | without a session a protected path is redirected to `/signin` with `redirect` set to the pathname; with a session an auth route is redirected to `/dashboard`; every other pair passes through; no other redirect target exists |
| Middleware.ProtectedIsPrefixMatch | middleware.ts:11-14 | a path is protected iff it starts with `/dashboard` or `/settings` |
| Middleware.PrefixAndExactExamples | middleware.ts:11-18 | `/settings/x` and `/dashboardfoo` are protected; `/signup` is an auth route but `/signin/` and `/signup/x` are not |
| Middleware.RedirectTargetsBySession | middleware.ts:20-32 | an anonymous visitor is never sent to `/dashboard`, a signed-in user never to `/signin` |
| Middleware.NoRedirectLoop | middleware.ts:20-34 | the target of any redirect passes through for the same session |
| Middleware.Handle | middleware.ts:37-48 | a path the matcher excludes is answered with pass-through and never reaches the decision; any other path gets the decision |
| Middleware.MatcherNeverChangesResponse | middleware.ts:37-48 | under the literal matcher and under the pattern as written, every response equals the decision alone: the paths either reading lets through unchecked are never redirected |
| Middleware.GuardedPathsAreMatched | middleware.ts:46 | every protected or auth-route path reaches the middleware, under both readings of the matcher |
| Middleware.FaviconWildcard | middleware.ts:46 | as written, the pattern excludes `/faviconXico`, which the literal reading lets through |
| Middleware.LiteralMatcherRefines | middleware.ts:39-46 | the literal matcher lets through everything the written one does, and more only where the character after `favicon` is not a dot; it excludes `/favicon.ico`, `/_next/static/…` and `/public/…` |
| RouteGuard.Navigation | components/route-guard.tsx:16-18 | a navigation is pushed iff the user is not authenticated and the path is not public, and it targets `/signin` |
| RouteGuard.GuardNeverHidesChildren | components/route-guard.tsx:15-21 | the children are rendered unchanged, the same for every auth state and path, even while a navigation is pushed |
| RouteGuard.PublicIsExact | components/route-guard.tsx:8 | `/`, `/signin`, `/signup` are public; `/signin/` and `/dashboard` are not (exact match) |
| RouteGuard.NeverRedirected | components/route-guard.tsx:16 | an authenticated user, or a public path, is never redirected |
| RouteGuard.RedirectTargetIsPublic | components/route-guard.tsx:16-18 | the page the guard sends to does not redirect again |
| Providers.AuthProvider.constructor | components/providers.tsx:20 | the flag starts false |
| Providers.AuthProvider.Login | components/providers.tsx:22 | the flag becomes true, whatever it was |
| Providers.AuthProvider.Logout | components/providers.tsx:23 | the flag becomes false, whatever it was |
| Providers.RunIsLastCall | components/providers.tsx:22-23 | after any non-empty call sequence the flag says whether the last call was `login` |
| Providers.CallsIdempotent | components/providers.tsx:22-23 | repeating `login` or `logout` any number of times equals one call |
| Providers.DefaultStaysAnonymous | components/providers.tsx:13-17 | outside a provider `login` and `logout` leave the context as it is, so it stays unauthenticated, while a provider whose last call was `login` is authenticated |
| AssetFilter.FilteredIsMatchingSubsequence | components/Watchlist.tsx:25-29 | the shown rows are a subsequence of the assets, and an asset is shown iff its lower-cased name or symbol contains the lower-cased search |
| AssetFilter.EmptySearchKeepsAll | components/Watchlist.tsx:25-29 | an empty search shows every asset in order |
| AssetFilter.SearchIsCaseInsensitive | components/Watchlist.tsx:27-28 | two searches equal up to case show the same rows |
| AssetFilter.FilterTwiceIsOnce | components/Watchlist.tsx:25-29 | filtering the filtered rows again with the same search changes nothing |
| AssetFilter.InitialRows | components/Watchlist.tsx:14-22 | initially the four mock assets are shown, in order |
| AssetFilter.ChangeColour | components/Watchlist.tsx:57 | green iff `change >= 0` |
| AssetFilter.ChangePrefix | components/Watchlist.tsx:58 | `+` iff `change > 0`, nothing otherwise |
| AssetFilter.SignRule | components/Watchlist.tsx:57-59 | a `+` always comes with green; green without `+` happens exactly at zero |
| Text.ToLower | components/Watchlist.tsx:27-28 | length is kept and each character is lower-cased |
| Text.ContainsAtOffset | components/Watchlist.tsx:27-28 | `includes` holds iff the search occurs at some offset |
| WatchlistStore.SortNewestFirstCorrect | hooks/useWatchlist.ts:19 | the ordering step yields a permutation of its input with `created_at` non-increasing |
| WatchlistStore.InsertByAgeSorted | hooks/useWatchlist.ts:19 | inserting a row into a newest-first list keeps it newest-first and adds exactly that row |
| WatchlistStore.LoadIsOwnRowsNewestFirst | hooks/useWatchlist.ts:15-19 | a load is newest first and holds exactly the rows whose `user_id` is the user's, with multiplicity |
| WatchlistStore.Insert | hooks/useWatchlist.ts:57-63 | an insert adds exactly one row to the table |
| WatchlistStore.InsertThenLoad | hooks/useWatchlist.ts:55-63 | after adding a row of the user's, the next load holds it and otherwise the same rows |
| WatchlistStore.ForeignInsertInvisible | hooks/useWatchlist.ts:15-19 | a row with another (or no) user id never shows in the user's load |
| WatchlistStore.NoDeduplication | hooks/useWatchlist.ts:55-63 | adding the same row twice leaves two copies in the load |
| WatchlistStore.DeleteRemovesExactlyMatching | hooks/useWatchlist.ts:74-78 | a delete keeps exactly the rows not matching both user and symbol, each as many times as before, in table order |
| WatchlistStore.DeleteIdempotent | hooks/useWatchlist.ts:74-78 | deleting twice equals deleting once; deleting a symbol with no rows changes nothing |
| WatchlistStore.DeleteThenLoad | hooks/useWatchlist.ts:74-78 | after a delete the user's load holds none of their rows with the symbol and each of their other rows as many times as before |
| WatchlistStore.WatchlistHook.constructor | hooks/useWatchlist.ts:6-8 | the view starts empty, loading, without error |
| WatchlistStore.WatchlistHook.Mount | hooks/useWatchlist.ts:10-30 | without a user id (undefined or empty) nothing changes; otherwise the first fetch runs: rows give the user's newest-first load, null data gives `[]`, an error keeps the rows and records its message; loading ends |
| WatchlistStore.WatchlistHook.FetchWatchlist | hooks/useWatchlist.ts:13-28 | rows give the user's newest-first load, null data gives `[]`, an error keeps the rows and records its message (an `Error`'s own message, otherwise `An error occurred`); loading ends in every case |
| WatchlistStore.WatchlistHook.AddToWatchlist | hooks/useWatchlist.ts:53-70 | an accepted insert adds the row `{user_id, symbol, type}`; a rejected one changes the table not at all, records the message and is rethrown |
| WatchlistStore.WatchlistHook.RemoveFromWatchlist | hooks/useWatchlist.ts:72-85 | an accepted delete removes the matching rows; a rejected one records the message and is rethrown |
| Dashboard.IsInWatchlist | app/dashboard/page.tsx:99-101 | true iff some item, of either type, has the symbol |
| Dashboard.StockSymbolsAreTheStockItems | app/dashboard/page.tsx:47-49 | the quoted symbols are those of the stock items, one per stock item in watchlist order, and none other |
| Dashboard.WatchlistStockQuotesInOrder | app/dashboard/page.tsx:47-50 | the quotes arrive only if all do, one per stock item in order with its symbol |
| Dashboard.ToggleFlipsMembership | app/dashboard/page.tsx:103-109 | one press of the star flips whether the symbol is in the user's next load |
| Dashboard.SearchResultsMatchTarget | app/dashboard/page.tsx:70-73 | results come from stock search or crypto search according to the search type, one per hit, in order |
| Dashboard.SelectionIsTheDayChart | app/dashboard/page.tsx:90-92 | a selected asset is charted as the watchlist page charts it under `24h`: a crypto over one day, a stock with the default history query |
| Dashboard.DashboardView.constructor | app/dashboard/page.tsx:21-28 | initial state: no quotes, no results, loading, stock search |
| Dashboard.DashboardView.FetchInitialData | app/dashboard/page.tsx:39-58 | cryptos are set when listed; stock quotes are replaced only for a non-empty watchlist whose quotes all arrive, otherwise kept; loading ends |
| Dashboard.DashboardView.HandleSearch | app/dashboard/page.tsx:63-77 | an empty query clears the results without a search; a failed search keeps them |
| Dashboard.DashboardView.SetSearchType | app/dashboard/page.tsx:28 | records the search target |
| Dashboard.DashboardView.HandleSymbolSelect | app/dashboard/page.tsx:87-97 | the symbol is selected and the chart replaced only when its history arrives |
| Dashboard.DashboardView.ToggleWatchlist | app/dashboard/page.tsx:103-113 | exactly one mutation, remove if listed and add otherwise; an accepted one keeps the hook's error, a rejected one leaves the table unchanged and records its message, and is caught |
| WatchlistPage.ResolveItem | app/dashboard/watchlist/page.tsx:44-51 | a stock item yields its quote; a crypto item yields the first listed coin with its symbol, or nothing when none has it; each request fails exactly as its provider call does |
| WatchlistPage.MergeAssetsFails | app/dashboard/watchlist/page.tsx:53 | the merge fails iff some stock quote fails or some crypto item meets a failed listing |
| WatchlistPage.MergeAssetsInOrder | app/dashboard/watchlist/page.tsx:53-55 | never more assets than items, and their symbols are a subsequence of the items' symbols |
| WatchlistPage.MergeAssetsFromItems | app/dashboard/watchlist/page.tsx:44-55 | each asset has the symbol and type of some item |
| WatchlistPage.MergeAssetsKeepsStocks | app/dashboard/watchlist/page.tsx:45-46 | every stock item's quote is among the assets |
| WatchlistPage.MergeAssetsKeepsListedCryptos | app/dashboard/watchlist/page.tsx:47-55 | every crypto item whose symbol is listed contributes the first listed coin with that symbol to the assets |
| WatchlistPage.MergeAssetsComplete | app/dashboard/watchlist/page.tsx:53-55 | when every item resolves, the assets are one per item in order |
| WatchlistPage.TimeframeMattersOnlyForCryptos | app/dashboard/watchlist/page.tsx:81-83 | a picked stock gets the same chart request under every timeframe, the same as on first selection; a picked crypto's request changes exactly when the timeframe names another span, and the three offered choices give three different requests |
| WatchlistPage.PickUnderInitialTimeframe | app/dashboard/watchlist/page.tsx:59-61 | under the initial `7d`, picking an asset asks for the same chart as the automatic first selection, seven days of a crypto or the default stock history |
| WatchlistPage.GainFollowsTheMarketData | app/dashboard/watchlist/page.tsx:141-148 | a resolved stock shows a gain iff its quote's change is non-negative; a resolved crypto iff the 24-hour change percentage of a listed coin with its ticker is positive |
| WatchlistPage.ZeroChangeDiffersByKind | app/dashboard/watchlist/page.tsx:266-274 | an unchanged stock is shown as a gain, an unchanged crypto as a loss |
| WatchlistPage.WatchlistPageView.constructor | app/dashboard/watchlist/page.tsx:21-25 | initial state: no assets or selection, loading, timeframe `7d` |
| WatchlistPage.WatchlistPageView.FetchWatchlistData | app/dashboard/watchlist/page.tsx:35-76 | only with a user; an empty watchlist clears assets; a merge replaces them and selects the first only if nothing is selected; failures keep the state; loading ends |
| WatchlistPage.WatchlistPageView.HandleAssetSelect | app/dashboard/watchlist/page.tsx:78-88 | the asset is selected; the chart follows the timeframe for cryptos |
| WatchlistPage.WatchlistPageView.HandleTimeframeChange | app/dashboard/watchlist/page.tsx:90-101 | the timeframe is recorded; only a selected crypto's chart is re-requested |
| Timeframe.DaysFor | app/dashboard/watchlist/page.tsx:83 | `24h` iff one day, `7d` iff seven days, anything else thirty |
| Timeframe.OptionsMapToTheirSpans | app/dashboard/crypto/page.tsx:115-117 | the three offered choices request 1, 7 and 30 days, all different |
| CryptoPage.SameRuleAsWatchlistPage | app/dashboard/crypto/page.tsx:218-219 | the markets page shows a crypto's change as a gain (green, `+`) exactly when the watchlist page does: only for a positive change |
| CryptoPage.FirstChartRequest | app/dashboard/crypto/page.tsx:29-31 | the first chart is the market chart of the first listed coin's lower-cased ticker over seven days, the span `7d` names, one point per price pair; it is the chart the watchlist page first requests for that coin |
| CryptoPage.CryptoPageView.constructor | app/dashboard/crypto/page.tsx:17-22 | initial state: nothing listed or selected, loading, timeframe `7d` |
| CryptoPage.CryptoPageView.FetchCryptos | app/dashboard/crypto/page.tsx:25-39 | a listing replaces the rows and a non-empty one selects its first coin, overriding any selection, with a seven-day chart; a failure keeps the state; loading ends |
| CryptoPage.CryptoPageView.HandleCryptoSelect | app/dashboard/crypto/page.tsx:46-55 | the coin is selected and charted for the current timeframe's days |
| CryptoPage.CryptoPageView.HandleTimeframeChange | app/dashboard/crypto/page.tsx:57-68 | the timeframe is recorded; without a selection nothing else changes |
| StocksPage.PopularQuotesInOrder | app/dashboard/stocks/page.tsx:28-30 | the fetch succeeds iff all five symbols are quoted, giving five quotes in the order AAPL, MSFT, GOOGL, AMZN, META |
| StocksPage.RowHistory | app/dashboard/stocks/page.tsx:52 | a stock's chart is always the default query for its symbol, whatever the timeframe |
| StocksPage.SignRuleAcrossViews | app/dashboard/stocks/page.tsx:111-112 | the stocks page shows a gain (green, `+`) exactly when the watchlist page does and exactly when the table component colours it green, but a zero change gets a `+` here and none there |
| StocksPage.StocksPageView.constructor | app/dashboard/stocks/page.tsx:17-22 | initial state: no rows or selection, loading, timeframe `1mo` |
| StocksPage.StocksPageView.FetchStocks | app/dashboard/stocks/page.tsx:25-42 | five quotes replace the rows and the first is selected and charted; a failed quote keeps the state; loading ends |
| StocksPage.StocksPageView.HandleStockSelect | app/dashboard/stocks/page.tsx:49-57 | the row is selected and charted with the default query |
| StocksPage.StocksPageView.HandleSearch | app/dashboard/stocks/page.tsx:59-67 | an empty query does nothing; hits replace the rows wholesale; selection and chart stay |
| StocksPage.StocksPageView.SetTimeframe | app/dashboard/stocks/page.tsx:116 | the timeframe is recorded and no chart is requested |
| Settings.SingleKeyUpdates | app/settings/page.tsx:90-133 | the view selector's and the auto-refresh switch's one-key updates change that key of the local row and no other; without a row the state stays empty |
| Settings.SpreadLaws | app/settings/page.tsx:63 | spreading `{}` changes nothing, a self-spread is the identity, and two successive updates equal one combined update |
| Settings.PayloadUserId | app/settings/page.tsx:56-60 | the payload's `user_id` is the update's, else the stored row's, else the signed-in user's |
| Settings.PayloadKeepsStoredKeys | app/settings/page.tsx:56-60 | every stored key not overridden by the update is sent unchanged |
| Settings.LocalStateIsSentRow | app/settings/page.tsx:56-63 | after an accepted update the local row is the row that was sent, except for `user_id`, which the sent row carries even when the stored row lacks it |
| Settings.TimeframeChangeKeepsIndicators | app/settings/page.tsx:110-114 | a timeframe change sets the timeframe, keeps the indicators and no other key changes |
| Settings.DisplayedDefaults | app/settings/page.tsx:91 | without a row the controls show `stocks`, `1d`, off; an empty stored string shows the default |
| Settings.ChosenTimeframeIsShown | app/settings/page.tsx:108-114 | after an accepted timeframe change the selector shows the chosen value |
| Settings.SingleRow | app/settings/page.tsx:32-36 | `.single()` yields a row iff exactly one row has the user's id, and then that row |
| Settings.SettingsView.constructor | app/settings/page.tsx:15-17 | no user, no preferences, loading |
| Settings.SettingsView.SetUser | app/settings/page.tsx:20-23 | records the signed-in user |
| Settings.SettingsView.FetchPreferences | app/settings/page.tsx:27-45 | without a user it returns with loading still on; otherwise the single row is stored when found, the state is kept on error, and loading ends |
| Settings.SettingsView.UpdatePreferences | app/settings/page.tsx:50-67 | without a user nothing is sent or changed; otherwise the payload is sent, an accepted upsert merges the update and a rejected one changes nothing |
| MarketApi.GetStockQuote | lib/api.ts:41-64 | fails iff the reply has no first result, with `Failed to fetch stock quote`; otherwise the symbol is the argument, name `T`, price `c`, volume `v`, change `c - o` |
| MarketApi.StockChangeSign | lib/api.ts:50 | a quote's change is non-negative iff the bar closed at or above its open |
| MarketApi.DefaultHistoryQuery | lib/api.ts:67 | the default history query is 5-minute candles from yesterday to today |
| MarketApi.GetStockHistory | lib/api.ts:67-80 | one point per candle in order with the candle's time and close; `[]` without results |
| MarketApi.SearchStocks | lib/api.ts:83-95 | one hit per ticker in order, mapping ticker, name, market and primary exchange; `[]` without results |
| MarketApi.GetTopCryptos | lib/api.ts:100-112 | one quote per listed coin in order, symbol upper-cased; fails on a reply that is not a list |
| MarketApi.TopCryptoSymbolsUpperCased | lib/api.ts:105 | every listed symbol is upper case and equal to the coin's up to case |
| MarketApi.GetCryptoHistory | lib/api.ts:115-123 | the chart of the lower-cased symbol, one point per `[timestamp, price]` pair in order; fails without `prices` |
| MarketApi.Take | lib/api.ts:131 | `slice(0, n)`: the first `n` elements, or all when fewer |
| MarketApi.SearchCryptos | lib/api.ts:126-147 | succeeds iff the search reply has a coin list and the detail of each of its first ten hits arrives; then one result per leading hit in order, each the hit's detail quote, symbols upper-cased |
| MarketApi.GetMarketStats | lib/api.ts:157-177 | the global figures are copied; missing dominance and markets changes default to 0; failures are rethrown |

## Left out

- **Network and hosted-service calls.**
  - Not modelled: `fetch` to the market-data providers; the watchlist,
    preferences and auth calls (`getSession`, `getUser`, `signOut`).
  - How they appear instead: as inputs, namely `Endpoints`, the table
    sequence, store outcomes and the user id.
  - Within one handler, every read of a provider (for example, each crypto
    item's `getTopCryptos()` call) sees the same snapshot.
- **The realtime change subscription of the watchlist hook** and its teardown.
  It is concurrency with an external channel. Its effect is one more call of
  `FetchWatchlist`, which is modelled.
- **Timers and concurrency.**
  - The 30 s and 60 s polling intervals.
  - The 300 ms search debounce.
  - `rateLimitDelay`, which nothing calls.
  - The order in which concurrent requests complete.
  - `All` reports the first failing request in sequence order. What
    `Promise.all` actually rejects with depends on timing.
- **Floating point and formatting.**
  - `changePercent` and `volumeChange24h`, which are divisions.
  - `toFixed`, `Intl.NumberFormat`, `toLocaleString`.
  - `Date` and ISO-string conversion. Dates are day numbers; timestamps stay
    epoch milliseconds.
  - The `|| 0` defaults of the market statistics are modelled for a missing
    field only, not for `NaN`.
- **Rendering.** JSX, charts, animations, icons, the "Loading..." screens,
  and the pages that are pure markup:
  - app/page.tsx
  - components/LandingPage.tsx
  - components/features.tsx
  - components/navbar.tsx
- **Sign-in and sign-up flows.** components/SignIn.tsx, components/SignUp.tsx
  and app/signup/page.tsx are not part of this model, because they are chains
  of external auth calls.
- **getCryptoDetails.** It returns the raw reply without transformation.
- **Provider-side limits** (`limit=10`, `limit=120`, `per_page=100`, `sort`).
  These are query parameters that the provider applies.
- **Text.ToLower and Text.ToUpper: ASCII only.** Unicode case mapping is not
  modelled.
- **MarketApi.SearchStocks and MarketApi.GetCryptoHistory: query strings are
  passed as given.** The URL encoding of the query string and the path
  segment is not modelled.
- **WatchlistStore.SortNewestFirst: ties keep table order.** Rows with equal
  `created_at` stay in table order; the hosted store's order for ties is
  unspecified.
- **The `id` and `created_at` of an inserted row** are parameters, because the
  store assigns them.
- **StocksPage.StocksPageView.HandleSearch: rendering after a search is not
  modelled.** Search hits have no change fields, so the change cell at
  app/dashboard/stocks/page.tsx:220 calls `toFixed(2)` on `undefined` and
  throws a `TypeError`: after any search that returns hits, rendering the page
  fails. The model stops at the state update.
- **Settings: values inside a stored row are never `null`.** Only present or
  absent keys are distinguished. The upsert's conflict resolution on the
  server is not modelled; the model keeps only the payload sent.
- **Middleware: path rewriting.** How Next.js compiles `config.matcher` into a
  path regular expression is not modelled. The pattern is read as a regular
  expression over the whole pathname.

## Findings

| source | as written | input that shows it | evidently intended | confidence | as-written member | corrected member |
|---|---|---|---|---|---|---|
| middleware.ts:46 | in `favicon.ico` inside the matcher's lookahead the `.` is a regular-expression wildcard, so any path whose text after `/` starts with `favicon`, one character, `ico` skips the middleware | `/faviconXico` | exclude only the literal `favicon.ico`, as the comment at middleware.ts:43 says (`favicon\.ico`) | not executed; harmless for the current route lists, since no such path is protected or an auth route (Middleware.MatcherNeverChangesResponse) | Middleware.MatcherAsWritten (shown by Middleware.FaviconWildcard) | Middleware.Matcher (Middleware.LiteralMatcherRefines, Middleware.GuardedPathsAreMatched) |
