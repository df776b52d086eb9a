# Parity trading core, modelled in Dafny

This project models the trading core of Parity, a web front end. Parity lets a
wallet owner trade prediction markets through a Safe smart account and watch
live perpetuals candles. The model covers these parts:

- **The trading-session bootstrap.** It derives the Safe and deploys it when it
  is missing. It reuses stored API credentials or provisions new ones. It
  submits the token-approval batch when something is unapproved. Only when
  every step succeeds does it persist a fully flagged record.
- **The per-address session store.** It lives in browser local storage under
  `polymarket_trading_session_<lower-cased address>`.
- **The trading-client gate and order placement.** Market orders are sent as
  limit orders at an aggressive price derived from the order-book quote.
- **The prediction-market event feed.** It decides which markets become cards
  and how events are flattened into one list.
- **The perpetuals candle feed and the live chart.** This covers the interval
  lengths, the snapshot window, candle normalisation and the update flag. In
  the chart it covers the initial high and low, the merge of streamed candles
  and the timeframe switch.
- **The application store, the display formatters and the trade link.**

Every external service is an oracle value in the model. This covers the relay,
the order book, the RPC node, the HTTP endpoints and the clock. Such a value is
`Probe<T>`, which is either `Answered(v)` or `Threw(failure)`, or it is a
function parameter such as `parseFloat`, `JSON.parse` or `toFixed`. A
collaborator's answer is therefore universally quantified in every lemma.
Prices are `real`, so IEEE rounding is not modelled.

One module per source file:

| module | source |
|---|---|
| `SessionStore` | `utils/session.ts` |
| `SafeDeployment` | `hooks/useSafeDeployment.ts` |
| `ApiCredentials` | `hooks/useUserApiCredentials.ts` |
| `TokenApprovals` | `hooks/useTokenApprovals.ts` |
| `ClobClientGate` | `hooks/useClobClient.ts` |
| `SessionOrchestrator` | `hooks/useTradingSession.ts` |
| `ClobOrder` | `hooks/useClobOrder.ts` |
| `PolymarketEvents` | `hooks/usePolymarketEvents.ts` |
| `Hyperliquid` | `lib/hyperliquid.ts` |
| `PriceChart` | `components/PriceChart.tsx` |
| `AppStore` | `lib/store.ts` |
| `Format` | `lib/utils.ts` |
| `TradeUrl` | `lib/polymarket.ts` |

Shared helpers:

- `Base` holds Option, Result, thrown values, oracle answers and truthiness.
- `Text` holds ASCII lower-casing and prefix cancellation.
- `Decimal` holds the rendering of a number and `parseInt` of leading digits.

`SessionOrchestrator.InitializeTradingSession` works in two stages:

1. `Decide` follows the code's branch chain and records the path taken:
   which collaborators were consulted, the credentials used, and the failure
   that ended the pass. Its contract gives each recorded fact in closed form,
   in terms of the collaborators' answers.
2. `Assemble` turns that path into the hook state, the storage, the
   displayed step sequence and the ordered list of collaborator calls.

Behaviour the code does not implement, and so the model does not either:

- The code never checks the order size or a limit price. A limit order only
  needs a price to be present.
- The bootstrap always queries deployment and approvals. It never skips a step
  because of the flags stored in the record. Only the stored credentials are
  reused.
- There is no guard against concurrent bootstrap passes.

## Model

| member | source | states |
|---|---|---|
| `SessionStore.KeyCaseInsensitive` | utils/session.ts:31-33 | Two addresses share a storage key exactly when they agree after lower-casing. |
| `SessionStore.Clear` | utils/session.ts:63-72 | Clearing removes the address's key and keeps every other key and its entry; outside a browser storage is unchanged. |
| `SessionStore.Save` | utils/session.ts:51-61 | Saving stores the record under the address's key and keeps every other key; outside a browser storage is unchanged. |
| `SessionStore.LoadOutcome` | utils/session.ts:28-49 | A load returns a session exactly when the key holds a parseable record whose owner matches the address up to case; unparseable text is left in place; storage is unchanged or only that key is cleared. |
| `SessionStore.LoadDiscardsForeignOwner` | utils/session.ts:36-42 | A record without an owner, or with another owner, loads as nothing and is removed. |
| `SessionStore.LoadAfterSave` | utils/session.ts:28-61 | Round trip: loading a saved record back, under any spelling of its owner's address, returns it and changes nothing. |
| `SessionStore.LoadAfterClear` | utils/session.ts:63-72 | After clearing an address, no spelling of it loads anything. |
| `SessionStore.OtherAddressesIsolated` | utils/session.ts:51-72 | Saving or clearing one address never changes what another address loads. |
| `SafeDeployment.DerivedSafeAddress` | hooks/useSafeDeployment.ts:13-22 | No Safe address without a connected owner or when the factory lookup fails; otherwise the derivation from owner and factory. |
| `SafeDeployment.IsSafeDeployed` | hooks/useSafeDeployment.ts:24-40 | The relay's answer if it gives one. If the relay throws, the answer is whether the bytecode is longer than "0x", given a public client; without one it is false. It fails only when the relay and the bytecode read both throw. |
| `SafeDeployment.DeploySafe` | hooks/useSafeDeployment.ts:42-47 | Succeeds with the proxy address exactly when the deployment confirms one; an empty confirmation fails with "Safe deployment failed". |
| `ApiCredentials.DeriveBeforeCreate` | hooks/useUserApiCredentials.ts:12-33 | Derivation is tried first. Creation is called exactly when derivation threw or lacks a part. Complete derived credentials are returned unchanged; otherwise creation's answer or failure is. |
| `TokenApprovals.SetAllTokenApprovals` | hooks/useTokenApprovals.ts:12-28 | The whole batch goes out with the fixed description; the result is true exactly when execute and wait both succeed. |
| `ClobClientGate.ClobClientFor` | hooks/useClobClient.ts:22-54 | A client exists exactly when signer, owner, Safe, completion and stored credentials are all present; it then signs with type 2 for the Safe as funder. |
| `SessionOrchestrator.Decide` | hooks/useTradingSession.ts:56-80 | Closed form of the branch chain: each collaborator is consulted exactly when the earlier stages allowed it. Deployment follows a "not deployed" answer, provisioning a missing stored credential, submission an "unapproved" answer. The pass ends without failure exactly when approvals succeed. The failure that ends it is the stage's own: the deployment check's or deployment's throw, the provisioning failure, the approval check's throw, or "Token approvals failed"; the two early checks fail with "Wallet not connected" and "Could not derive Safe address". |
| `SessionOrchestrator.InitRequiresConnection` | hooks/useTradingSession.ts:49-51 | Without a connected owner the pass throws "Wallet not connected" and changes nothing. |
| `SessionOrchestrator.EarlyFailures` | hooks/useTradingSession.ts:56-61 | Without a signer or a derivable Safe, the pass fails before any query. The error is recorded, storage is untouched, and the steps shown are checking then idle. |
| `SessionOrchestrator.DeploysOnlyWhenMissing` | hooks/useTradingSession.ts:63-67 | A deployment is requested, and the deploying step shown, exactly when the deployment query answered "not deployed". |
| `SessionOrchestrator.ProvisionsOnlyWithoutStoredCredentials` | hooks/useTradingSession.ts:69-73 | Credentials are provisioned, and the credentials step shown, exactly when the pass got past deployment and the re-read record has none. |
| `SessionOrchestrator.ApprovalsOnlyWhenMissing` | hooks/useTradingSession.ts:75-80 | The approval batch is submitted, and the approvals step shown, exactly when the approval check was reached and reported something unapproved. |
| `SessionOrchestrator.SuccessSavesFullRecord` | hooks/useTradingSession.ts:82-93 | A pass succeeds exactly when every stage does. It then saves and shows the record with all three flags, the owner, the Safe, the credentials used and the time; saving is its last call. |
| `SessionOrchestrator.FailureSavesNothing` | hooks/useTradingSession.ts:94-99 | A failed pass rethrows and shows idle with the failure's message. The in-memory session is kept, nothing is saved, and storage only loses a foreign record. |
| `SessionOrchestrator.StageFailures` | hooks/useTradingSession.ts:58-99 | Once the deployment check is reached, the pass rethrows the failure of the stage that ended it. That is the deployment check's throw, the deployment's throw, or "Safe deployment failed" when no proxy is confirmed. Later it is the provisioning failure, the approval check's throw, or "Token approvals failed" when the batch is not executed and confirmed. |
| `SessionOrchestrator.SuccessIsComplete` | hooks/useTradingSession.ts:122 | After a successful pass the session is complete, and the saved record loads back under any spelling of the owner's address. |
| `SessionOrchestrator.SecondPassReusesCredentials` | hooks/useTradingSession.ts:69-73 | A pass after a successful one provisions nothing; if it succeeds it saves the same credentials. |
| `SessionOrchestrator.ReconnectRestoresSession` | hooks/useTradingSession.ts:38-45 | Reconnecting after a successful pass restores the saved record and shows it complete. |
| `SessionOrchestrator.EffectRestoresStoredSession` | hooks/useTradingSession.ts:38-45 | A connected owner sees the stored record. The step is complete when the record has both the credentials and the approvals flag, and idle otherwise; error and relay client are kept. |
| `SessionOrchestrator.DisconnectForgets` | hooks/useTradingSession.ts:30-36 | Losing the wallet resets the hook, and a remembered owner's record no longer loads. |
| `SessionOrchestrator.EndForgets` | hooks/useTradingSession.ts:115-120 | Ending the session drops it from memory, shows idle, leaves nothing complete and releases the relay client. The owner's record no longer loads; other owners' records and the last error are kept. |
| `SessionOrchestrator.SuccessOpensClobClient` | hooks/useClobClient.ts:22-47 | After a successful pass the trading client opens with the credentials used, signature type 2 and the Safe as funder. |
| `ClobOrder.AggressivePriceBounds` | hooks/useClobOrder.ts:38-55 | The market-order price is always strictly between 0 and 1. A buy pays at most 0.99 and a sell asks at least 0.01. With a valid quote the price is on the aggressive side of it whenever the cap (a buy quote of at most 0.99) or the floor (a sell quote of at least 0.01) allows. Without a valid quote the price is exactly 0.99 or 0.01. |
| `ClobOrder.AggressivePriceExamples` | hooks/useClobOrder.ts:49-54 | Worked cases: a buy at 0.40 goes out at 0.42 and one at 0.98 at 0.99. A sell at 0.10 goes out at 0.095 and one at 0.005 at 0.01. A NaN quote falls back. |
| `ClobOrder.SubmitNeedsWalletAndClient` | hooks/useClobOrder.ts:28-29 | Without a wallet or a client the call throws before touching state or the venue. |
| `ClobOrder.LimitOrderNeedsPrice` | hooks/useClobOrder.ts:77 | Nothing is posted exactly when a limit order lacks a price; that failure is recorded. |
| `ClobOrder.PostedOrderShape` | hooks/useClobOrder.ts:36-91 | The posted order is good-till-cancelled with the caller's neg-risk flag. It takes the caller's price for a limit order and the aggressive price for a market order. Only market orders ask for a quote. |
| `ClobOrder.SubmitSucceedsIffOrderId` | hooks/useClobOrder.ts:71-98 | A submission succeeds exactly when the venue returns a non-empty order id. The id is then returned and remembered, active orders are refreshed and no error is shown. |
| `ClobOrder.SubmitFailureRecorded` | hooks/useClobOrder.ts:98-105 | Once started, every failure is recorded and rethrown as an Error. A missing id gives "Order submission failed" and a non-Error throw "Failed to submit order". |
| `ClobOrder.CancelOutcome` | hooks/useClobOrder.ts:110-128 | With a client, cancelling asks the venue to cancel exactly the given order id. It succeeds exactly when a client exists and the venue accepts; only then are orders refreshed. Failures are recorded as Errors, and the remembered order id never changes. |
| `ClobOrder.CancelSubmittedOrder` | hooks/useClobOrder.ts:71-118 | After a successful submission the remembered order id is the venue's; cancelling it asks the venue to cancel exactly that order, keeps the id, and succeeds exactly when the venue accepts. |
| `PolymarketEvents.OrHalf` | hooks/usePolymarketEvents.ts:52-53 | A price is never zero: NaN and zero become one half, any other number is kept. |
| `PolymarketEvents.PricesFallBack` | hooks/usePolymarketEvents.ts:46-58 | Both prices stay one half unless the outcome prices parse to at least two entries. |
| `PolymarketEvents.ParseMarketFields` | hooks/usePolymarketEvents.ts:36-79 | A market becomes a card exactly when it passes the filter. The card takes the first two token ids as yes and no. It uses the event's description, end date, slug or id only where the market's own field is absent. Its prices are those of the outcome prices with their one-half fallbacks, and its liquidity is the parsed liquidity field, zero when absent. |
| `PolymarketEvents.ParseMarkets` | hooks/usePolymarketEvents.ts:35-80 | No more cards than markets, and every card comes from a market of the event. |
| `PolymarketEvents.ParseMarketsSplits` | hooks/usePolymarketEvents.ts:30-83 | Parsing a concatenation concatenates the cards, and there are as many cards as listable markets. |
| `PolymarketEvents.AllMarketsSnoc` | hooks/usePolymarketEvents.ts:95-97 | Adding one more event appends exactly that event's cards. |
| `PolymarketEvents.QueryUrlCarriesLimit` | hooks/usePolymarketEvents.ts:89-91 | The request names the events route, and the limit reads back from it. |
| `PolymarketEvents.QueryMarkets` | hooks/usePolymarketEvents.ts:88-99 | The query fails on a transport failure, on a non-ok response ("Failed to fetch Polymarket events") or on an unreadable body. Otherwise it returns every event's cards in order. |
| `Decimal.ParseAfterRender` | lib/hyperliquid.ts:179 | `parseInt` of a rendered number followed by a non-digit gives the number back. |
| `Hyperliquid.IntervalMapKeepsNames` | lib/hyperliquid.ts:55-62 | Every chart timeframe maps to the exchange timeframe of the same name, and no two share one. |
| `Hyperliquid.IntervalMsOfUnit` | lib/hyperliquid.ts:178-192 | A number followed by m, h or d is that many minutes, hours or days in milliseconds; any other unit is one minute. |
| `Hyperliquid.IntervalMsTable` | lib/hyperliquid.ts:178-192 | Each chart timeframe's name reads as its number of minutes in milliseconds. |
| `Hyperliquid.IntervalMs` | lib/hyperliquid.ts:178-192 | The length of a timeframe is its number of minutes times 60000. |
| `Hyperliquid.NormalizeAll` | lib/hyperliquid.ts:105-113 | Normalisation keeps the number and the order of the candles. |
| `Hyperliquid.SnapshotWindowSpan` | lib/hyperliquid.ts:97-102 | The clock is read twice. The window ends at the second reading and spans `limit` timeframes plus the time between the readings, so never less than `limit` timeframes for a clock that does not go back; by default that is 100 minutes. |
| `Hyperliquid.FetchOutcome` | lib/hyperliquid.ts:86-118 | A failed fetch gives no candles. An answer is normalised candle by candle, in order. |
| `Hyperliquid.StreamFlags` | lib/hyperliquid.ts:137-161 | Each streamed candle is flagged as an update exactly when its open time equals the previous message's (0 before the first). |
| `PriceChart.MaxHigh` | components/PriceChart.tsx:82 | The highest high bounds every candle and is some candle's high. |
| `PriceChart.MinLow` | components/PriceChart.tsx:83 | The lowest low bounds every candle and is some candle's low. |
| `PriceChart.InitialHighLow` | components/PriceChart.tsx:72-85 | After a non-empty load, the high and low are exactly the series' extremes, and the price is the last close. |
| `PriceChart.KeepLast` | components/PriceChart.tsx:168 | The series keeps its last 200 candles, in order. |
| `PriceChart.MergeSeries` | components/PriceChart.tsx:117-169 | A candle with the last candle's open time replaces it and keeps the rest. Any other candle is appended and only the last 200 are kept. The streamed candle is always last, and its close is the price. |
| `PriceChart.AppendRecomputesExtremes` | components/PriceChart.tsx:151-160 | An appended candle resets the high and low to the extremes of the untrimmed series. |
| `PriceChart.MergePreservesCovers` | components/PriceChart.tsx:143-145 | Corrected updater: the high and low keep bounding every shown candle, and a replacing candle can only widen them. |
| `PriceChart.MergeDirection` | components/PriceChart.tsx:131-141 | Corrected updater: the direction is that of the move from the price shown before the candle. |
| `PriceChart.StaleHighDropsBelowShownCandle` | components/PriceChart.tsx:144-145 | Counterexample: the updater as written lowers the high below a shown candle's high; the corrected one does not. |
| `PriceChart.StaleDirectionShowsFallAsRise` | components/PriceChart.tsx:131-141 | Counterexample: the updater as written shows a falling price as rising; the corrected one shows it falling. |
| `PriceChart.IntervalChangeClears` | components/PriceChart.tsx:183-188 | The same timeframe changes nothing. Another one switches to it and clears the series, and choosing it twice is choosing it once. |
| `AppStore.FirstIndexOf` | lib/store.ts:29-31 | The index found is the first token with the symbol; none is found exactly when no token has it. |
| `AppStore.GetTokenFirstMatch` | lib/store.ts:29-31 | A token is found exactly when one has the symbol, and it is the first such token. |
| `AppStore.MarketsFor` | lib/store.ts:33-35 | Every market returned is linked to the symbol. |
| `AppStore.MarketsForExactly` | lib/store.ts:33-35 | A market is returned exactly when it is in the store and linked to the symbol. Filtering a concatenation concatenates, so order is kept. |
| `AppStore.SelectionOnlyChangesSelection` | lib/store.ts:27 | Selecting records the symbol, even one no token has, and changes nothing else; it is idempotent. |
| `AppStore.AddsAppendOnly` | lib/store.ts:37-47 | Adding a position appends it after all existing ones and changes no other part of the store. The two appends commute. |
| `AppStore.InitialStateLookups` | lib/store.ts:20-25 | The store starts with nothing selected and no hedges. ETH is found among the four demonstration tokens; BTC is not. |
| `Format.VolumeThresholds` | lib/utils.ts:15-26 | A volume always shows "$" and two decimals. The suffix follows inclusive thresholds (B from 1e9, M from 1e6, K from 1e3). The shown number times the suffix's scale is the volume. |
| `Format.PercentSign` | lib/utils.ts:28-31 | A percentage ends with "%" and starts with "+" exactly when the sign is wanted and the value is positive. |
| `Format.ProbabilityAsPercent` | lib/utils.ts:33-35 | A probability shows as its value times 100, with no decimals, followed by "%". |
| `TradeUrl.Encode` | lib/polymarket.ts:13 | The encoding uses only unreserved characters and "%". |
| `TradeUrl.DecodeEncode` | lib/polymarket.ts:13 | Round trip: percent-decoding the encoding of any string gives it back. |
| `TradeUrl.TradeUrlShape` | lib/polymarket.ts:9-15 | A non-empty slug links to the event page. Otherwise the link searches for the question: the parameter is URL-safe and decodes to the question. |
| `TradeUrl.EncodeExamples` | lib/polymarket.ts:13 | Unreserved text is kept as it is, and a space becomes `%20`. |

## Left out

- Browser and React machinery is not modelled: rendering, re-render scheduling, timers (the 300 ms live-update flash), `isInitializing`/`isSubmitting` as transient flags, query caching and the WebSocket transport. Each operation is modelled as one atomic step over its inputs.
- `SessionStore.Save`: a storage quota error swallowed by `saveSession` is not modelled; saving always succeeds in a browser.
- `SessionStore.LoadOutcome`: JSON is modelled by classifying stored text (record, parseable but ownerless, unparseable); the serialiser itself is not modelled.
- `Text.Lower`: lower-cases ASCII letters only, not the full Unicode case mapping of `toLowerCase`.
- The relay client's construction, the builder signing configuration, the chain constants and `utils/approvals` are not part of this model. The approval transactions are an input, and the allowance check is an oracle.
- `ClobOrder.AggressivePriceBounds`: prices are exact reals; the IEEE double products of `marketPrice * 1.05` are not modelled.
- `ClobOrder.SubmitSucceedsIffOrderId`: the shape of the venue's response beyond its `orderID` is not modelled.
- `PolymarketEvents.ParseMarketFields`: `JSON.parse` of a token list that yields a non-array value is not modelled; parsing either gives a string array or fails. Dates and their locale rendering are function parameters.
- `Decimal.ParseAfterRender`: `parseInt` is modelled for unsigned digit strings; leading whitespace and signs are not modelled (no timeframe name has them).
- `Hyperliquid.Normalize`: `parseFloat` of a price string is a total function to reals; NaN prices from malformed strings are not modelled in candles.
- `Hyperliquid` subscription teardown (`cleanup`, the singleton client) and error logging are left out as transport details.
- `PriceChart.InitialHighLow`: the random mock 24h volume, and the "Failed to load chart data" branch, are not modelled. The fetch never throws, since it turns every failure into an empty list, so that branch cannot be reached. A zero first open gives a non-finite change, which is modelled as NaN.
- `formatPrice` (`toLocaleString`) is not modelled; `toFixed` is a function parameter of the formatters.
- `AppStore.InitialStateLookups`: `MOCK_EVENT_MARKETS` is imported by the store but not defined in `lib/mock-data.ts`, so the initial event markets are a parameter.
- `TradeUrl.Encode`: strings are sequences of Unicode scalar values. A lone UTF-16 surrogate, which makes `encodeURIComponent` throw, cannot occur. The decoder is a reference inverse and does not reject overlong encodings.

## Findings

| source | as written | input that shows it | evidently intended | confidence | as-written member | corrected member |
|---|---|---|---|---|---|---|
| components/PriceChart.tsx:144-145 | The live-update branch compares the new candle's high and low with the `high24h` and `low24h` captured when the subscription effect was created. The effect's dependencies are only the symbol, the interval and the loader, so on mount those values are the initial zeros. | Load `[{x:0,h:100,l:40}, {x:60000,h:80,l:55}]`, so the high is 100. A tick for `x:60000` with high 90 passes `90 > 0` and sets the high to 90, below the first candle's 100. | Compare with the current high and low (a functional state update), so the high only rises and the low only falls while candles are replaced. | high (not executed) | `PriceChart.StaleHighDropsBelowShownCandle` | `PriceChart.MergePreservesCovers` |
| components/PriceChart.tsx:131-141 | The live-update branch sets `lastPrice` and the direction from the `currentPrice` captured with the subscription, which is 0 on mount. | Load one candle closing at 60, then tick on it with close 45: the direction is "up", because `45 > 0`. | Compare with the price currently shown, so a fall shows as "down". | high (not executed) | `PriceChart.StaleDirectionShowsFallAsRise` | `PriceChart.MergeDirection` |
