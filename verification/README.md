# TM-Vault client core, modelled in Dafny

TM-Vault is a React Native client for a yield vault on Base Sepolia. Users deposit mock USDC into one of three vaults (stable, growth, turbo) and request withdrawals. This project models the parts of the client that hold real logic and proves properties about them:

- **The deposit screen (`DepositModal`).** A stage machine `input → approving → approved → depositing → success`. It is driven by:
  - the Approve, Deposit, Cancel and Retry handlers;
  - the effects that react to the approve and deposit mutations;
  - a 120 s watchdog, 5 s safety timers and the unmount cleanup.

  Every failure sends the flow back to `input` and raises the error modal. The model is the class `DepositModal.DepositFlow`. Each `useState`/`useRef` value is a field, and each event is a method. An effect becomes a method whose body branches on the effect's guard. A timer expiry becomes a method whose precondition is the condition under which the timer can still fire.
- **The withdrawal screen (`WithdrawModal`).** The same design over `input → processing → success`. It also reads the user's holding in the selected vault from the decoded position.
- **Write mutations.** The approve, deposit and withdrawal mutations are seen by the screens as a status: idle, requested, pending, succeeded or failed. `reset()` forgets the mutation in flight, and a result arriving after that is dropped.
- **`formatError`.** A first-match-wins classifier of error messages with a trailing-segment rule and truncation. Its output is never longer than 103 characters.
- **`safeWalletCall` and the global error-handler filter.** How a caught wallet error is rewritten. The awaited `Linking` results are inputs.
- **`useTMVault` reads.**
  - Positional decoding of the stats and position tuples.
  - Preview normalisation and the `enabled` guards.
  - The 50 000-block log window.
  - The history pipeline: merge and tag the six log lists, sort newest first (a stable sort), collect the distinct blocks lacking a timestamp, fill a timestamp table in a loop, then stamp each event.
- **`useAppStore`.** The wallet/positions/transaction store with partial-merge setters, a reset and the persisted projection. It is modelled as the class `AppStore.Store`.
- **`formatAddress` and the Metro `jose` rewrite.** Two string rewrites, modelled with JavaScript's `slice` and regular-expression semantics.

The modules mirror the source files:

| File | Models |
|---|---|
| `strings.dfy` | The JavaScript string primitives the code relies on |
| `error_formatter.dfy` | `formatError` |
| `safe_wallet_call.dfy` | `safeWalletCall` and the global handler filter |
| `mutation.dfy` | Mutation status |
| `deposit_flow.dfy` | `DepositModal` |
| `withdraw_flow.dfy` | `WithdrawModal` |
| `vault_data.dfy` | Tuple and preview decoding, query guards, block window |
| `vault_history.dfy` | `useVaultHistory` |
| `app_store.dfy` | `useAppStore` |
| `formatters.dfy` | `formatAddress` |
| `metro_config.dfy` | `resolveRequest` |

The lifecycle the code implements differs from the obvious reading of the screens in five places, and the model follows the code:

- **No failed stage.** The code has no separate failed stage. An error returns the flow to `input` with the error modal shown, and Retry only hides the modal, zeroes the progress and resets the mutations; it never changes the stage.
- **Watchdog checks no stage.** The watchdog does not check the stage when it fires. It is only cleared on the way.
- **Approval completes through the refetch.** Approval completes through the `.finally` of an allowance refetch that checks no stage. A cancel made while that refetch is outstanding is overridden, and the flow lands in `approved`: see `DepositModal.CancelDuringAllowanceRefetch`.
- **No acknowledged stage.** There is no separate "acknowledged" stage. The screens see only loading, confirmed and error.
- **The withdrawal amount is a real number.** It is parsed as a number, not as scaled integer units, and it is compared against the available value plus a 0.1 tolerance.

## Model

| member | source | states |
|---|---|---|
| Strings.IndexOfIsFirstOccurrence | utils/errorFormatter.ts:8-10 | `includes`/`indexOf` as used by every classifier: a found index is an occurrence with no earlier one; not found means no occurrence anywhere |
| Strings.ContainsInSuffix | utils/safeWalletCall.ts:27 | a text found in a suffix of a message is found in the message (the regex search continues past a failed occurrence) |
| Strings.TrimIsInnerSlice | utils/errorFormatter.ts:34 | `trim()` returns a slice of its input with only whitespace cut on either side and no whitespace at either end |
| Strings.AfterLastIsFinalPiece | utils/errorFormatter.ts:33-34 | the last piece of `split(":")` is a suffix of the message with no ':' in it, preceded by ':' whenever it is not the whole message |
| Strings.AfterLastWithoutSeparator | utils/errorFormatter.ts:33-34 | without the separator the last piece is the whole message |
| Strings.FirstLine | utils/safeWalletCall.ts:27 | what `.+` can consume: a prefix with no line terminator, stopped only by a line terminator or the end |
| ErrorFormatter.FormatError | utils/errorFormatter.ts:1-44 | the result is never longer than 100 + 3 characters |
| ErrorFormatter.FormatErrorShape | utils/errorFormatter.ts:1-44 | every result is one of the fixed texts, a trimmed ':'-free piece of the message shorter than 100, the first 100 characters plus "...", or the message itself |
| ErrorFormatter.TrailingDetailIsPiece | utils/errorFormatter.ts:33-35 | the kept trailing segment is a slice of the message containing no ':' |
| ErrorFormatter.RejectionWins | utils/errorFormatter.ts:7-13 | any of the three rejection phrases yields "Transaction rejected by user", whatever else the message contains |
| ErrorFormatter.RuleOrder | utils/errorFormatter.ts:2-36 | falsy → unknown-error text; funds, revert, missing-key and trailing-segment rules each apply exactly when all earlier rules failed |
| ErrorFormatter.TrailingColonGivesEmpty | utils/errorFormatter.ts:31-36 | an unclassified message ending in ':' formats to "" |
| ErrorFormatter.LongPlainMessageTruncated | utils/errorFormatter.ts:39-41 | an unclassified message over 100 characters without ':' becomes its first 100 characters plus "..." |
| ErrorFormatter.ShortPlainMessageKept | utils/errorFormatter.ts:39-43 | an unclassified message of at most 100 characters without ':' is returned unchanged |
| SafeWalletCall.ExtractUrlSpec | utils/safeWalletCall.ts:27-29 | an extracted URL is non-empty, has no line terminator, and follows "Unable to open URL: " in the message; none without that text |
| SafeWalletCall.ExtractUrlNoneIffNoMatch | utils/safeWalletCall.ts:27-29 | nothing is extracted exactly when no marker in the message is followed by a non-empty line |
| SafeWalletCall.ExtractUrlIsLeftmostMatch | utils/safeWalletCall.ts:27-29 | an extracted URL is the rest of the line after the leftmost marker that is followed by a non-empty line, as `/Unable to open URL: (.+)/` captures it |
| SafeWalletCall.ExtractUrlFirstLine | utils/safeWalletCall.ts:27-29 | when the first marker is followed by a non-empty line, that line is the URL |
| SafeWalletCall.SafeWalletCall | utils/safeWalletCall.ts:11-58 | a resolved operation's value is returned untouched with no browser attempt and no callback; `onUrlError` runs at most once; a browser attempt happens only for a URL error |
| SafeWalletCall.UrlFailureAlwaysCouldNotOpen | utils/safeWalletCall.ts:23-48 | every message with "Unable to open URL" ends in "Could not open wallet app…" (before the session check, and whatever `Linking` did), calling `onUrlError` once when given |
| SafeWalletCall.BrowserOpenedOnlyForAcceptedHttps | utils/safeWalletCall.ts:27-40 | `openURL` is reached only for an extracted `https://` URL that `canOpenURL` accepted |
| SafeWalletCall.SessionErrorsRewritten | utils/safeWalletCall.ts:51-53 | a message without the URL marker that contains "No matching key" or "session" is replaced by "Wallet session expired…", with no browser attempt and no `onUrlError` |
| SafeWalletCall.OtherErrorsRethrownUnchanged | utils/safeWalletCall.ts:51-56 | an error matching neither the URL nor the session texts is rethrown as the same object, with no callback |
| SafeWalletCall.GlobalHandlerAction | utils/safeWalletCall.ts:70-111 | an error is swallowed exactly when its message has one of the three WalletConnect texts, and forwarded exactly when it has none and a previous handler exists |
| Mutation.Step | hooks/useTMVault.ts:249-285 | a requested mutation becomes pending; a pending one succeeds or fails with the thrown value; any other report leaves the status alone |
| Mutation.FlagsExclusive | hooks/useTMVault.ts:279-283 | loading, confirmed and error never hold together (it follows from the status being one value; stated for the effects that read the flags) |
| Mutation.ResetIgnoresLateEvents | hooks/useTMVault.ts:284 | after `reset()` no sequence of late reports changes the status |
| Mutation.SettledIsFinal | hooks/useTMVault.ts:281-283 | a succeeded or failed mutation stays so under any further reports |
| DepositModal.CheckAmount | components/DepositModal.tsx:186-195 | accepted iff 0 < amount ≤ balance (missing balance is 0), "not positive" iff amount ≤ 0, "insufficient" otherwise |
| DepositModal.InputAction | components/DepositModal.tsx:171 | the input stage offers Approve iff the allowance (missing = 0) is below the amount, Deposit otherwise |
| DepositModal.CoveredAmountSkipsApproval | components/DepositModal.tsx:326-346 | an allowance covering the amount offers Deposit directly |
| DepositModal.MissingAllowanceNeedsApproval | components/DepositModal.tsx:171 | with no allowance read, every valid amount needs approval |
| DepositModal.DepositFlow.constructor | components/DepositModal.tsx:38-52 | initial state: input, progress 0, no modal, empty error title and message, no confetti, no watchdog, idle mutations, no dismissal, no calls |
| DepositModal.DepositFlow.HandleError | components/DepositModal.tsx:65-77 | input, progress 0, modal shown with the title and formatted message, watchdog cleared; every other field unchanged |
| DepositModal.DepositFlow.HandleApprove | components/DepositModal.tsx:185-214 | a rejected amount changes nothing; otherwise both mutations reset, stage approving, progress 0.2, modal hidden, watchdog "Approval"/120000 ms, exactly one approve call with the amount; every other field unchanged |
| DepositModal.DepositFlow.HandleDeposit | components/DepositModal.tsx:217-247 | a rejected amount changes nothing; otherwise deposit mutation reset (approval kept), stage depositing, progress 0.7, watchdog "Deposit"/120000 ms, exactly one deposit call; every other field unchanged |
| DepositModal.DepositFlow.ApprovalEvent | components/DepositModal.tsx:35 | the approve mutation's status follows `Mutation.Step`; nothing else changes |
| DepositModal.DepositFlow.DepositEvent | components/DepositModal.tsx:36 | the deposit mutation's status follows `Mutation.Step`; nothing else changes |
| DepositModal.DepositFlow.ApprovalConfirmedEffect | components/DepositModal.tsx:92-107 | acted on only when confirmed in approving: watchdog cleared, one refetch started, no deposit call; otherwise nothing changes; every other field unchanged |
| DepositModal.DepositFlow.AllowanceRefetchSettled | components/DepositModal.tsx:100-105 | on success or failure alike, approved with progress 0.5 while mounted, whatever the stage; every other field unchanged |
| DepositModal.DepositFlow.DepositConfirmedEffect | components/DepositModal.tsx:110-125 | acted on only when confirmed in depositing: success, progress 1, confetti, watchdog cleared, dismissal after 3000 ms; every other field unchanged |
| DepositModal.DepositFlow.DepositErrorEffect | components/DepositModal.tsx:128-132 | acted on only with an error in depositing: input, progress 0, "Deposit Failed" modal, watchdog cleared; every other field unchanged |
| DepositModal.DepositFlow.ApprovalErrorEffect | components/DepositModal.tsx:135-139 | acted on only with an error in approving: input, progress 0, "Approval Failed" modal, watchdog cleared; every other field unchanged |
| DepositModal.DepositFlow.ApprovalSafetyExpired | components/DepositModal.tsx:142-152 | in approving with the approval neither loading, confirmed nor failed: "interrupted" failure and approval reset; every other field unchanged |
| DepositModal.DepositFlow.DepositSafetyExpired | components/DepositModal.tsx:155-165 | in depositing with the deposit neither loading, confirmed nor failed: "interrupted" failure and deposit reset; every other field unchanged |
| DepositModal.DepositFlow.WatchdogExpired | components/DepositModal.tsx:80-89 | "Transaction Timeout" naming the armed stage, input, both mutations reset; every other field unchanged |
| DepositModal.DepositFlow.Cancel | components/DepositModal.tsx:256-266 | input, progress 0, watchdog cleared, both mutations reset; every other field unchanged |
| DepositModal.DepositFlow.Retry | components/DepositModal.tsx:249-254 | modal hidden, progress 0, both mutations reset, stage unchanged; every other field unchanged |
| DepositModal.DepositFlow.Unmount | components/DepositModal.tsx:55-62 | the pending watchdog is cleared; every other field unchanged |
| DepositModal.LateDepositFailureAfterCancel | components/DepositModal.tsx:128-139 | after a cancel the abandoned deposit's failure raises no modal and leaves the flow in input |
| DepositModal.CancelDuringAllowanceRefetch | components/DepositModal.tsx:92-107 | a cancel between approval confirmation and refetch settling still ends in approved, progress 0.5 |
| DepositModal.ApproveThenDeposit | components/DepositModal.tsx:185-247 | approve, confirmation, refetch, deposit and confirmation reach success with one approve and one deposit call of the amount |
| WithdrawModal.Units | utils/formatters.ts:26-29 | `fromBigInt`: a present number times 10^6 gives back the raw value; undefined reads 0 |
| WithdrawModal.HoldingIn | components/WithdrawModal.tsx:82-96 | no position gives zero shares and value |
| WithdrawModal.HoldingFromTuple | components/WithdrawModal.tsx:85-96 | vault k's shares and value are tuple positions 2k and 2k+1 of `getUserPosition` |
| WithdrawModal.NoHoldingWithoutTuple | components/WithdrawModal.tsx:82-96 | a non-array read leaves shares and value at 0 |
| WithdrawModal.CheckWithdrawal | components/WithdrawModal.tsx:155-165 | accepted iff 0 < amount ≤ available + 0.1; "not positive" iff amount ≤ 0 |
| WithdrawModal.SubmittedShares | components/WithdrawModal.tsx:183 | the shares requested are the loaded deposit preview, undefined when it has not loaded |
| WithdrawModal.EstimatedShares | components/WithdrawModal.tsx:100-102 | the recorded estimate is the preview in whole units, 0 without a preview |
| WithdrawModal.WithdrawFlow.constructor | components/WithdrawModal.tsx:31-43 | initial state: input, progress 0, no modal, empty error title and message, no confetti, no watchdog, idle mutation, no withdrawal info, no dismissal |
| WithdrawModal.WithdrawFlow.HandleError | components/WithdrawModal.tsx:56-68 | input, progress 0, modal shown with the title and formatted message, watchdog cleared; every other field unchanged |
| WithdrawModal.WithdrawFlow.HandleWithdraw | components/WithdrawModal.tsx:154-187 | a rejected amount changes nothing; otherwise info (amount, estimate, vault name) recorded, processing, progress 0.5, watchdog armed, exactly one request with the previewed shares; every other field unchanged |
| WithdrawModal.WithdrawFlow.WithdrawalEvent | components/WithdrawModal.tsx:29 | the mutation's status follows `Mutation.Step`; nothing else changes |
| WithdrawModal.WithdrawFlow.ConfirmedEffect | components/WithdrawModal.tsx:107-122 | acted on only when confirmed in processing: success, progress 1, confetti, watchdog cleared, dismissal after 3000 ms; every other field unchanged |
| WithdrawModal.WithdrawFlow.ErrorEffect | components/WithdrawModal.tsx:124-128 | acted on only with an error in processing: input, progress 0, "Withdrawal Failed" modal, watchdog cleared; every other field unchanged |
| WithdrawModal.WithdrawFlow.SafetyExpired | components/WithdrawModal.tsx:131-141 | in processing with the request neither loading, confirmed nor failed: "interrupted" failure and mutation reset; every other field unchanged |
| WithdrawModal.WithdrawFlow.WatchdogExpired | components/WithdrawModal.tsx:71-79 | "Transaction Timeout" failure and mutation reset; every other field unchanged |
| WithdrawModal.WithdrawFlow.Cancel | components/WithdrawModal.tsx:195-204 | input, progress 0, watchdog cleared, mutation reset; every other field unchanged |
| WithdrawModal.WithdrawFlow.Retry | components/WithdrawModal.tsx:189-193 | modal hidden, progress 0, mutation reset, stage unchanged; every other field unchanged |
| WithdrawModal.WithdrawFlow.Unmount | components/WithdrawModal.tsx:46-53 | the pending watchdog is cleared; every other field unchanged |
| WithdrawModal.LateFailureAfterCancel | components/WithdrawModal.tsx:124-128 | after a cancel the abandoned request's failure raises no modal |
| VaultData.At | hooks/useTMVault.ts:60-67 | an index inside the tuple reads that value, past the end reads undefined |
| VaultData.DecodeStats | hooks/useTMVault.ts:57-69 | stats exist iff the read is an array; field i is tuple position i for i in 0..7 |
| VaultData.DecodePosition | hooks/useTMVault.ts:94-107 | the position exists iff the read is an array; field i is tuple position i for i in 0..8 |
| VaultData.StatsRoundTrip | hooks/useTMVault.ts:57-69 | decoding the tuple of complete stats gives them back |
| VaultData.PositionRoundTrip | hooks/useTMVault.ts:94-107 | decoding the tuple of a complete position gives it back |
| VaultData.StatsFromLongTuple | hooks/useTMVault.ts:57-69 | a tuple of at least 8 values decodes completely and re-encodes to its first 8 |
| VaultData.PositionFromLongTuple | hooks/useTMVault.ts:94-107 | a tuple of at least 9 values decodes completely and re-encodes to its first 9 |
| VaultData.ShortTupleLeavesFieldsUndefined | hooks/useTMVault.ts:57-69 | fields past a short tuple's end are undefined |
| VaultData.ParsePreview | hooks/useTMVault.ts:178-185 | null/undefined gives no preview, a scalar gives itself, an array its first element, an empty array throws |
| VaultData.NoPreviewForNonPositiveAmount | hooks/useTMVault.ts:173-185 | an amount ≤ 0 disables the preview query; a query that never ran holds undefined data (caching aside), so no preview is shown whatever the contract would answer |
| VaultData.NoReadsWithoutClientOrAddress | hooks/useTMVault.ts:54-107 | without a client or a connected address the position query (and the history query, guarded the same way at line 484) is disabled and no position is decoded; without a client no stats are decoded either (caching aside) |
| VaultData.FromBlock | hooks/useTMVault.ts:417 | never above the current block, at most 50000 below it, exactly 50000 below when positive, 0 iff the chain is at most 50000 blocks long |
| VaultData.FromBlockMonotone | hooks/useTMVault.ts:417 | a later current block never moves the window back |
| VaultHistory.UntagTag | hooks/useTMVault.ts:459-464 | tagging keeps each log's hash, block, timestamp and arguments |
| VaultHistory.SelectTagSame | hooks/useTMVault.ts:459-464 | every event of a tagged list carries that list's type and direction |
| VaultHistory.SelectTagOther | hooks/useTMVault.ts:459-464 | a tagged list holds no event of any other type or direction |
| VaultHistory.Merge | hooks/useTMVault.ts:458-464 | the merged list is as long as the six lists together |
| VaultHistory.SelectMerge | hooks/useTMVault.ts:458-464 | the events of one type and direction in the merge are those of the six tagged lists, in spread order |
| VaultHistory.NoOtherEvents | hooks/useTMVault.ts:458-464 | no event of the merge has a type/direction pair other than the six (transfers always carry a direction, the others never) |
| VaultHistory.MergeKeepsEachList | hooks/useTMVault.ts:458-464 | each of the six lists is recovered, in order, from the merge by its type and direction ('in'/'out' for the transfers) |
| VaultHistory.Insert | hooks/useTMVault.ts:465 | insertion adds exactly the one event |
| VaultHistory.SortByBlock | hooks/useTMVault.ts:465 | the sorted history is a permutation of the merge |
| VaultHistory.InsertNewestFirst | hooks/useTMVault.ts:465 | inserting into a newest-first list keeps it newest first |
| VaultHistory.SortNewestFirst | hooks/useTMVault.ts:465 | the history is ordered by block number, non-increasing |
| VaultHistory.InBlockInsert | hooks/useTMVault.ts:465 | an inserted event goes before the events of its own block |
| VaultHistory.SortIsStable | hooks/useTMVault.ts:465 | the events of each block keep their merge order (stable sort) |
| VaultHistory.DedupeSpec | hooks/useTMVault.ts:467 | spreading a `Set` gives no duplicates and exactly the original members |
| VaultHistory.BlocksNeedingTimestampSpec | hooks/useTMVault.ts:467 | a block is listed iff some event in it has a missing or zero timestamp |
| VaultHistory.UniqueBlocksSpec | hooks/useTMVault.ts:467 | the blocks to fetch are duplicate-free and exactly the blocks of events without a truthy timestamp |
| VaultHistory.FetchTimestamps | hooks/useTMVault.ts:468-477 | the table holds exactly the listed blocks whose fetch succeeded, each with the fetched timestamp |
| VaultHistory.FillTimestamp | hooks/useTMVault.ts:479-482 | only the timestamp of an event changes |
| VaultHistory.FillAll | hooks/useTMVault.ts:479-482 | the stamped list keeps length and order, event by event |
| VaultHistory.AssembleHistory | hooks/useTMVault.ts:458-482 | the history is the sorted merge, newest first, each event with its own truthy timestamp, else its block's fetched timestamp, else none |
| AppStore.MergeWallet | store/useAppStore.ts:28-31 | each wallet field is the patch's when supplied and the old one otherwise |
| AppStore.MergeTx | store/useAppStore.ts:33-36 | each transaction field is the patch's when supplied (explicit undefined clears it) and the old one otherwise |
| AppStore.MergeWalletIdempotent | store/useAppStore.ts:28-31 | applying the same wallet patch twice equals applying it once |
| AppStore.MergeWalletComposes | store/useAppStore.ts:28-31 | two wallet updates equal one update by the composed patch |
| AppStore.EmptyWalletPatchKeeps | store/useAppStore.ts:28-31 | an empty patch changes nothing |
| AppStore.StatusChangeKeepsError | store/useAppStore.ts:33-36 | a status-only patch keeps the old error, hash and amount |
| AppStore.Partialize | store/useAppStore.ts:42 | the snapshot holds the wallet and the positions |
| AppStore.PartializeIgnoresTxState | store/useAppStore.ts:42 | the transaction state never affects the snapshot |
| AppStore.PartializeDeterminedBySlices | store/useAppStore.ts:42 | two states have the same snapshot iff their wallets and positions agree |
| AppStore.Store.constructor | store/useAppStore.ts:19-27 | null address, disconnected, balance 0, network "unknown", wrong network, no positions, `{status: "idle"}` |
| AppStore.Store.SetWallet | store/useAppStore.ts:28-31 | the wallet is merged with the patch; positions and txState untouched |
| AppStore.Store.SetPositions | store/useAppStore.ts:32 | the positions are replaced; nothing else changes |
| AppStore.Store.SetTxState | store/useAppStore.ts:33-36 | the transaction state is merged with the patch; wallet and positions untouched |
| AppStore.Store.ResetTxState | store/useAppStore.ts:37 | the transaction state is exactly idle with no hash, error or amount; nothing else changes |
| AppStore.Store.Snapshot | store/useAppStore.ts:42 | the persisted snapshot is the current wallet and positions |
| Formatters.FormatAddress | utils/formatters.ts:1-4 | "" for "", otherwise the first min(6,n) characters, "...", the last min(4,n) characters |
| Formatters.FormatAddressLength | utils/formatters.ts:3 | every address of at least 6 characters shortens to 13 characters |
| Formatters.FormatAddressFrame | utils/formatters.ts:3 | the result starts with a prefix of the address, has "..." at index min(6,n), and ends with a suffix of it |
| MetroConfig.ResolveRequest | metro.config.js:9-19 | one delegation with the same context and platform; the name changes iff the `jose` pattern matches it |
| MetroConfig.RewriteBareJose | metro.config.js:11-16 | "jose" becomes "jose/dist/browser" |
| MetroConfig.RewriteJoseSubpath | metro.config.js:11-16 | "jose/" + r (no line break in r) becomes "jose/dist/browser/" + r |
| MetroConfig.RewriteStopsAtLineBreak | metro.config.js:12-15 | a "jose/" name with a line break after it does not match and is forwarded unchanged |
| MetroConfig.RewriteLeavesOthers | metro.config.js:11-18 | a name that is not "jose" and does not start with "jose/" (e.g. "josefin") is forwarded unchanged |
| MetroConfig.RewrittenNamesMatchAgain | metro.config.js:11-16 | every rewritten name starts with "jose/" and is matched by the pattern again |
| MetroConfig.RewriteInjective | metro.config.js:11-18 | different requests never resolve to the same module name |
| MetroConfig.RewriteNotIdempotent | metro.config.js:11-16 | rewriting twice nests "dist/browser" again, so the rewrite is not idempotent |

## Left out

- Rendering is not modelled: JSX, navigation, haptics, toasts, confetti and the progress bar. The scheduled `navigation.goBack()` is kept as the dismissal delay, and a rejected amount is reported by the handler's result instead of a toast.
- Wall-clock time is not modelled. The watchdog, safety-timer and auto-dismiss expiries are explicit events, and a safety expiry's precondition is the effect guard under which its timer stays armed.
- Effects are methods the environment may call at any time. React runs them only when a dependency changes, so the model allows more behaviour than the app has.
- The `catch` blocks around `approve`, `deposit` and `requestWithdrawal` (components/DepositModal.tsx:209-213, 242-246, components/WithdrawModal.tsx:182-186) are not modelled. Those calls only invoke `mutation.mutate`, which reports failures through the mutation state and does not throw.
- Network and wallet I/O are parameters: `readContract`, `writeContract`, receipts, `getLogs`, `getBlock`, `getBlockNumber` and `Linking`. Fetched logs, fetched block timestamps (a missing block is a failed fetch), the balance, the allowance and the preview are inputs.
- Numbers are not modelled as floating point:
  - `parseUnits` is not modelled; deposit amounts are already-parsed integer base units.
  - The withdrawal amount is an exact real; NaN from `parseFloat` is not modelled.
  - `fromBigInt` (`WithdrawModal.Units`) is exact division by 10^6.
  - Block numbers are assumed small enough for `Number()` to be exact in the sort comparator.
- WithdrawModal.Units: a position word that is a string or boolean reads as 0, whereas `Number(...)` would convert it. The contract's ABI returns integers at these positions.
- VaultData.ParsePreview: preview data is modelled as integers. `BigInt(x.toString())` on a non-numeric value is not modelled. A preview that throws (an empty array) fails the whole render, so the withdrawal handler requires a preview that did not throw.
- React-query caching is not modelled: a disabled query may still show data cached under the same key. Only the `enabled` guards and the parsing are modelled.
- The screens assume the vault from the route exists. Without it the component renders nothing (`if (!vaultMeta) return null`) and no handler can run.
- Explicit `undefined` for a required field of a `Partial<...>` patch is not modelled: the wallet fields, and `status` in `setTxState`. The optional transaction fields do model it, as `Some(None)`.
- FormatError: the 100-character limit, the `< 100` test on the trailing segment and `substring(0, 100)` count Unicode scalar values, whereas JavaScript counts UTF-16 code units. A message of astral characters (emoji) is therefore truncated later than in the app, and the app's cut can split a surrogate pair, which the model cannot represent.
- FormatAddress: `slice(0, 6)` and `slice(-4)` are taken over Unicode scalar values, not UTF-16 code units; the two agree on the hexadecimal addresses the app formats.
- The JavaScript semantics are narrowed in a few places:
  - `trim` uses an ASCII whitespace set (space, tab, line feed, carriage return, vertical tab, form feed); JavaScript also strips Unicode spaces and line separators.
  - A caught error is its message (`error?.message || String(error)`) plus an identity.
  - Logging (`console.*`) is not modelled.
- Installing the global handlers is not modelled. This covers replacing `global.onunhandledrejection` and the `ErrorUtils` handler, `preventDefault`, and passing `isFatal`. Only the filter that decides between swallowing and forwarding is modelled.
- `Promise.all` over the block fetches is modelled as a sequential loop. The keys are distinct block numbers, so the order of completion does not change the table.
- The quick-amount and max-amount buttons, `formatCurrency`, `formatShares`, APY and portfolio arithmetic are not modelled, because they are floating point or display only.
