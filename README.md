# Bitcoin block browser: a Dafny model of its polling client

The browser shows the latest Bitcoin block and the block before it. It polls a
block-explorer REST API (Blockstream's by default), keeps the last pair it
fetched, and renders the pair with a light or dark theme. This project models
the data-handling core of that client and proves what it promises:

- `BlockchainApi` (`blockchain.dfy`) models the fetch client. The three `fetch*`
  operations are total functions of the network's answers. The network is a
  function from the log of URLs requested so far to the outcome of the last
  request. That outcome is a response (status, status text, and either the
  body text or the error reading it throws) or a thrown error. The deadline
  firing is the thrown error named `AbortError`. Every operation returns its
  result and the URLs it requested, in order. Parsing the JSON body and
  `Number(...)` are parameters.
- `SyncStore` (`store.dfy`) models the store. Pure functions say what beginning
  and completing a refresh do to the state. The class `BlockchainStore` holds
  the fields the store updates in place: the two blocks, `loading`, `error`, the
  polling timer and the persisted record. Its methods are proved against those
  functions.
- `Theme` (`theme.dfy`) models the theme provider. `InitialTheme` is the initial
  choice, `Toggled` is the toggle, and the class `ThemeProvider` holds the
  theme, the stored theme and the document's `dark` class. `UseTheme` is the
  hook's guard.
- `AppView` (`app.dfy`) models the values the page derives from the store: the
  time and transaction deltas, the sign rule of the Δ-tx text, the height line,
  the page's own initial theme, and what is rendered.
- `Text` (`text.dfy`) holds `trim`, the decimal rendering of integers, and a
  decimal parser that inverts that rendering. `Wrappers` holds `Option` and
  `Result`.

Three behaviours of the code that are easy to misread:

- Previous-block lookup. Only a non-2xx status there degrades to "no previous
  block". A throw there (the deadline, a connection failure, an unreadable
  body or bad JSON) fails the whole call, because it reaches the one `catch`
  of `fetchLatestAndPreviousBlockDetails` (src/api/blockchain.ts:104-124).
- Restore at start-up. The persisted pair is read and parsed when the store is
  created (src/store/useBlockchain.ts:18-28). The store's initializer then
  returns the literal empty state, and that state replaces the restored pair.
  So a fresh store always starts with no blocks, whatever is stored. The
  constructor of `BlockchainStore` states this. `RestoredSnapshot` models the
  parse on its own.
- Errors. Failures are JavaScript `Error`s with messages, not a typed
  taxonomy. A deadline failure surfaces as the message "Request timed out".

## Model

| member | source | states |
|---|---|---|
| `BlockchainApi.ConfiguredBase` | src/api/blockchain.ts:5 | the base is the configured value unless that is unset or empty, then the default explorer |
| `BlockchainApi.StripTrailingSlash` | src/api/blockchain.ts:35 | at most one final `/` is removed and nothing else changes |
| `BlockchainApi.ConfiguredBaseOverrides` | src/api/blockchain.ts:74-75 | a non-empty configured base is used (less a final `/`); unset or empty gives the default |
| `BlockchainApi.Caught` | src/api/blockchain.ts:122-124 | an `AbortError` becomes "Request timed out"; any other error is rethrown unchanged; nothing leaves as an abort |
| `BlockchainApi.ToDetails` | src/api/blockchain.ts:114-119 | `id`, `height`, `timestamp` are copied; `tx_count` is taken when present (0 included), else `txCount` |
| `BlockchainApi.GetText` | src/api/blockchain.ts:82-84 | a usable body iff the answer is a 2xx response whose body reads, and then it is the trimmed body; a non-2xx answer is told apart from a throw; an unreadable body raises the error reading it threw |
| `BlockchainApi.GetBlock` | src/api/blockchain.ts:86-95 | a block iff the answer is a 2xx response whose body reads and parses, and then it is the mapping of that payload; an unreadable body or a JSON failure raises exactly that error |
| `BlockchainApi.LatestBlock` | src/api/blockchain.ts:82-95 | the tip hash is requested first; the second request is for the block named by the trimmed tip-hash body; a success is the mapping of that response's payload; a throw at the last request, an unreadable hash body or an unreadable or unparsable block body is the failure, with that error |
| `BlockchainApi.PreviousBlock` | src/api/blockchain.ts:98-121 | below height 1 nothing is requested; otherwise the first request is for height − 1 and the second for the block named by its trimmed body; a found block is the mapping of that response's payload; a throw, an unreadable body or a JSON failure at either request is passed on as the failure, and nothing follows it |
| `BlockchainApi.FetchLatestBlockHeight` | src/api/blockchain.ts:4-24 | one request to the tip-height endpoint; a throw or an unreadable body fails with that error, an abort renamed "Request timed out"; no failure leaves as an abort |
| `BlockchainApi.HeightFromBody` | src/api/blockchain.ts:13-17 | non-2xx fails with the status message; for a 2xx response whose body reads, the number in the trimmed body, or "Invalid block height response" |
| `BlockchainApi.FetchLatestBlockDetails` | src/api/blockchain.ts:33-65 | at most two requests, the tip hash first; a success is the block read from the second, 2xx response; no failure leaves as an abort |
| `BlockchainApi.BlockFromPayload` | src/api/blockchain.ts:42-58 | given 2xx answers for the tip hash and for the block it names, the call returns exactly the mapping of that block's payload, after exactly those two requests |
| `BlockchainApi.FetchLatestAndPreviousBlockDetails` | src/api/blockchain.ts:73-128 | at most four requests, the tip hash first; a previous block needs all four; below height 1 there is no previous block and only two requests; no failure leaves as an abort |
| `BlockchainApi.StatusInMessage` | src/api/blockchain.ts:83 | the failure message for a non-2xx response contains the status, which reads back from it |
| `BlockchainApi.CurrentFailurePropagates` | src/api/blockchain.ts:82-95 | if the current block fails, the combined call fails with the same error and the same requests; if the combined call succeeds, its current block is `fetchLatestBlockDetails`'s |
| `BlockchainApi.TipHashStatusFails` | src/api/blockchain.ts:82-83 | a non-2xx tip-hash answer fails the call with that status, after that one request |
| `BlockchainApi.CurrentBlockStatusFails` | src/api/blockchain.ts:86-87 | a non-2xx current-block answer fails the call with that status, and no lookup follows |
| `BlockchainApi.GenesisSkipsLookup` | src/api/blockchain.ts:98-101 | below height 1 the result is the current block with no previous block, and no lookup is requested |
| `BlockchainApi.LookupAsksForPredecessor` | src/api/blockchain.ts:98-104 | from height 1 on, the third request is the height lookup and its height reads back as exactly current height − 1 |
| `BlockchainApi.HeightUrlNamesHeight` | src/api/blockchain.ts:104 | the lookup URL is the lookup path followed by the height's digits |
| `BlockchainApi.LookupStatusDegrades` | src/api/blockchain.ts:104-111 | a non-2xx answer for the previous hash or the previous block gives success with no previous block |
| `BlockchainApi.LookupThrowFailsCall` | src/api/blockchain.ts:104-124 | a throw in the previous-block lookup fails the whole call, an abort renamed, and no request follows the throw |
| `BlockchainApi.LookupThrowStops` | src/api/blockchain.ts:104-112 | the lookup alone: a throw at its hash request or its block request is its failure, and its requests end there |
| `BlockchainApi.CombinedAfterCurrent` | src/api/blockchain.ts:90-124 | once the current block is fetched, the combined call's requests are those two followed by the lookup's, and its result is the lookup's failure (caught) or the pair |
| `BlockchainApi.LookupFindsPrevious` | src/api/blockchain.ts:109-121 | two usable lookup answers give the pair with that previous block |
| `BlockchainApi.ThrowEndsCall` | src/api/blockchain.ts:80-124 | every request but the last was answered with a response, so whichever request a throw hits is the last one; the call then fails with that error (an abort renamed) |
| `BlockchainApi.EarlierRequestsAnswered` | src/api/blockchain.ts:80-121 | every request of the combined call but the last was answered with a response |
| `BlockchainApi.LastThrowFails` | src/api/blockchain.ts:80-124 | a throw at the combined call's last request is its failure, an abort renamed |
| `Text.TrimCutsWhitespace` | src/api/blockchain.ts:84 | the trimmed text is the middle of the body with exactly the white space at both ends cut |
| `Text.NatToString` | src/api/blockchain.ts:104 | a height is rendered as decimal digits without leading zeros |
| `SyncStore.Began` | src/store/useBlockchain.ts:36 | beginning a refresh sets loading, clears the error, and keeps both blocks |
| `SyncStore.ErrorText` | src/store/useBlockchain.ts:49 | the error text is the message, or the error's name when the message is empty |
| `SyncStore.Completed` | src/store/useBlockchain.ts:37-52 | success replaces both blocks (an absent previous block included); failure keeps both and records the error text; loading ends either way |
| `SyncStore.Persisted` | src/store/useBlockchain.ts:40-47 | success stores the fetched pair unless the write fails; otherwise storage is unchanged |
| `SyncStore.RestoredSnapshot` | src/store/useBlockchain.ts:18-28 | a record is restored iff the stored value is present, non-empty and parses; then each field is the parsed one with `?? null` applied |
| `SyncStore.OrNull` | src/store/useBlockchain.ts:24 | an absent field and `null` both give `null`; a present value is kept |
| `SyncStore.SuccessClearsError` | src/store/useBlockchain.ts:36-39 | a successful refresh shows the fetched pair with no error and not loading |
| `SyncStore.ConsecutiveRefreshes` | tests/store/useBlockchain.test.ts:29-43 | two successful refreshes, A then (B, previous A), show B as the block and A as the previous block |
| `SyncStore.ShowsLastSuccess` | src/store/useBlockchain.ts:35-53 | after any run of refreshes the pair shown is the last fetched one, or the earlier pair if none succeeded; the error is set iff the last refresh failed |
| `SyncStore.BlockchainStore.constructor` | src/store/useBlockchain.ts:14-34 | a new store starts with no blocks, no error, not loading and no timer, whatever is stored |
| `SyncStore.BlockchainStore.BeginRefresh` | src/store/useBlockchain.ts:36 | the state becomes `Began` of the old state; timer and storage are unchanged |
| `SyncStore.BlockchainStore.CompleteRefresh` | src/store/useBlockchain.ts:37-52 | the state becomes `Completed` of the old state and the storage becomes `Persisted`; the timer is unchanged |
| `SyncStore.BlockchainStore.Refresh` | src/store/useBlockchain.ts:35-53 | the state is the old state refreshed with the combined fetch's result; storage as `Persisted`; the timer is unchanged |
| `SyncStore.BlockchainStore.StartPolling` | src/store/useBlockchain.ts:54-59 | a timer is scheduled only if none is active; afterwards exactly one runs; the state is unchanged |
| `SyncStore.BlockchainStore.StopPolling` | src/store/useBlockchain.ts:60-65 | afterwards no timer runs, and without an active timer nothing changes |
| `SyncStore.BlockchainStore.Tick` | src/store/useBlockchain.ts:56-58 | a tick is a refresh whose outcome is absorbed; the timer stays |
| `Theme.FromName` | src/context/ThemeContext.tsx:15 | only the exact strings "dark" and "light" name a theme |
| `Theme.InitialTheme` | src/context/ThemeContext.tsx:12-26 | a valid stored name wins; otherwise dark iff the OS is known to prefer it; a throwing probe falls through |
| `Theme.StoredThemeIsRestored` | src/context/ThemeContext.tsx:36 | a theme written by the effect is the theme chosen at the next start, whatever the OS prefers |
| `Theme.Toggled` | src/context/ThemeContext.tsx:41 | toggling always changes the theme |
| `Theme.ToggleInvolution` | src/context/ThemeContext.tsx:41 | toggling twice gives the original theme |
| `Theme.UseTheme` | src/context/ThemeContext.tsx:46-50 | outside a provider the hook fails with "useTheme must be used within ThemeProvider"; inside it returns the theme |
| `Theme.ThemeProvider.constructor` | src/context/ThemeContext.tsx:28-38 | the theme starts as `InitialTheme`; the class follows it; storage holds it unless the write fails |
| `Theme.ThemeProvider.ApplyTheme` | src/context/ThemeContext.tsx:30-38 | the `dark` class is present iff the theme is dark; storage holds the theme's name unless the write fails |
| `Theme.ThemeProvider.SetTheme` | src/context/ThemeContext.tsx:40 | the theme becomes exactly `t`; storage is rewritten only when the theme changed |
| `Theme.ThemeProvider.Toggle` | src/context/ThemeContext.tsx:41 | the theme becomes its toggle; storage holds it unless the write fails |
| `AppView.TimeDelta` | src/App.tsx:46-47 | present iff both blocks are; then the absolute timestamp difference, never negative |
| `AppView.TimeDeltaSymmetric` | src/App.tsx:46-47 | swapping the two blocks leaves the time delta unchanged |
| `AppView.TxDelta` | src/App.tsx:48-50 | present iff both blocks carry a tx count; then the current count minus the previous count |
| `AppView.TxDeltaText` | src/App.tsx:74 | the text starts with `+` exactly when the delta is zero or more, and with `-` when negative |
| `AppView.TxDeltaTextReadsBack` | src/App.tsx:74 | the Δ-tx text reads back as the delta |
| `AppView.HeightText` | src/App.tsx:64 | "Loading..." while loading, else the block's height (reading back as it), else "Unknown" |
| `AppView.TxCountText` | src/App.tsx:72 | the tx count reads back from the text, or the text is "N/A" |
| `AppView.PageInitialTheme` | src/App.tsx:9-16 | the page starts dark iff the stored value is exactly "dark"; no OS preference |
| `AppView.InitialThemesAgree` | src/App.tsx:9-16 | the page's and the provider's initial themes agree iff a valid name is stored or the OS does not prefer dark |
| `AppView.Render` | src/App.tsx:59-93 | the alert is shown iff the error is a non-empty string, and then nothing else; otherwise the height line, a current panel iff a block (its id, its tx-count text, the time delta, and a Δ-tx text present iff the tx delta is and reading back as it), a previous panel iff a previous block (its id and tx-count text) |
| `AppView.RenderAfterRefresh` | src/App.tsx:59-64 | after a successful refresh the page shows the fetched block and its height; after a failure with a message, only the alert |

## Left out

- Network I/O, `AbortController` and the request deadline's `setTimeout`/`clearTimeout` (src/api/blockchain.ts:8-9, 21-23, 37-38, 62-64, 77-78, 125-127) are not modelled directly. The network is a parameter, and the deadline firing is an outcome whose error is named `AbortError`.
- BlockchainApi.FetchLatestBlockHeight: `Number(...)` is a parameter returning an integer or nothing. Fractional heights, and oddities such as `Number("")` being 0, are not modelled.
- BlockchainApi.ToDetails: the payload's `id`, `height` and `timestamp` are taken to be a string and two integers. A `tx_count` or `txCount` that is present but not a number is not modelled. JSON parsing is a parameter.
- SyncStore.RestoredSnapshot: `JSON.parse` is a parameter. It yields the stored object's two fields as absent, `null` or a value, or nothing when parsing or reading them throws. The `?? null` step is modelled on top of it.
- Thrown values that are not `Error` objects are not modelled, so `String(err)` is only modelled for errors.
- Overlapping `refresh` calls and their last-writer-wins interleavings are not modelled. Each refresh is a begin step followed by a complete step.
- The polling period is recorded but time is not modelled. A tick is an explicit call made while the timer is active.
- Zustand and React machinery are not modelled: subscriptions, re-rendering, hook dependency arrays and JSX. The `typeof document/localStorage` checks are covered only as "the storage write fails" and "nothing is stored".
- The page's own theme effect (src/App.tsx:18-26) is not modelled. It writes the page's own theme state to the same storage key and the same `dark` class. That state starts as `PageInitialTheme`, which differs from the provider's `InitialTheme` when nothing valid is stored and the OS prefers dark (`AppView.InitialThemesAgree`). In that case the two effects write different themes on mount. Which write lands last depends on React's effect order, which is not modelled either. The mount effect that calls `refresh` and `startPolling` and stops polling on unmount (src/App.tsx:28-34) is not modelled either.
- The highlight timer (src/App.tsx:36-44) and the timestamp formatting with `Date`/`toLocaleString` (src/App.tsx:71, 84) are not modelled.
- A failure of the document's `classList` calls inside the theme effect is not modelled. Only a failing storage write is.
- src/components/ThemeToggle.tsx is not part of this model. It is markup only.
