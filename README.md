# Wallet monitoring bot — a Dafny model of its core

This project is a Dafny model of the engine of the Wallet-monitoring-bot
repository. Users of that program define *bots*. A bot names up to six wallet
addresses (Ethereum, BNB, Tron, Bitcoin, Litecoin, Solana) and a Discord
webhook. While a bot runs, the backend works in three steps:

- It polls each wallet's chain, or listens to it over a socket in the case of
  Solana.
- It normalises every transaction into one canonical record and stores each
  record once.
- It posts an embed to the bot's webhook for every new record.

The dashboard reads the same records back. The repository also carries four
stand-alone monitors (`refer/*.js`), which follow the same check–dedup–notify
cycle with their own in-memory state.

The model follows the program's files. There is one module per core file, plus
a few shared modules:

| module | file | models |
|---|---|---|
| `Base`, `Text`, `Hex` | — | `Option`/`Result`; the JavaScript string operations the code relies on (`trim`, case folding, `startsWith`, `includes`, `slice`); `parseInt(s, 16)` and the `^0+` strip |
| `Canonical` | backend/models/Transaction.js | the canonical record every adapter produces |
| `SeenSet` | — | the insertion-ordered, capped "processed" sets of every monitor |
| `WalletService` | backend/services/walletService.js | per-chain dispatch, fetch, dedup save, wallet-document refresh, alert fan-out |
| `SubscriptionManager` | backend/services/solanaSubscriptionManager.js | reference-counted Solana listeners, debounce timers, reconciliation |
| `RunningBots` | backend/services/runningBotsStore.js | the in-memory registry of running bots and its webhook index |
| `SolService`, `TronService`, `Utxo`, `BtcService`, `LtcService` | backend/services/{sol,tron,btc,ltc}Service.js | the chain adapters |
| `DiscordService` | backend/services/discordService.js | embed construction, batching, the posts made |
| `PriceService` | backend/services/priceService.js | the USD price cache |
| `Server` | backend/server.js | the refresh loop over running bots |
| `BotRoutes` | backend/routes/botRoutes.js | create, edit, run, stop and delete, with their registry and subscription effects |
| `Dashboard` | frontend/src/components/Dashboard.jsx | wallet selection, summary rotation, sorting, date filter, pagination, ages |
| `ReferSol`, `ReferTron`, `ReferUtxo`, `Polling` | refer/sol.js, refer/tron.js, refer/btc.js, refer/ltc.js | the stand-alone monitors and the poll delay they share |

Every network call, the clock, timers, the database and the Discord API
become parameters. They are values, such as an HTTP reply, a listing or a
clock reading, or total functions, such as `listPage(before)`,
`attempt(signature, k)` or `fromHex(hex)`. The model therefore says what the
code does with any answer the outside world can give. Stateful objects are
classes whose methods are proved against specification functions:
the registry, the subscription manager, the storage, the price cache and the
monitors. Pure helpers are functions with lemmas.

## Model

| member | source | states |
|---|---|---|
| SeenSet.Add | backend/services/solService.js:165 | `set.add(x)`: the set of members grows by exactly `x`, the sequence stays duplicate-free and only ever grows at its end |
| SeenSet.AddAll | backend/services/solService.js:163-167 | adding a listing in order: members are the old ones plus the listing's, no duplicates, old order kept as a prefix |
| SeenSet.Newest | backend/services/solService.js:204-208 | `Array.from(set).slice(-cap)`: exactly `min(size, cap)` newest entries, a suffix of the set, duplicate-free |
| SeenSet.NewestDropsOnlyOlder | refer/sol.js:69-73 | trimming keeps every entry newer than one it keeps: only the oldest entries are ever dropped |
| Hex.Parse | backend/services/tronService.js:127 | `parseInt(s, 16)`: NaN exactly when the string does not start with a hex digit, else the value of an all-hex string |
| Hex.StripZeros | backend/services/tronService.js:121 | `replace(/^0+/, '')`: a suffix of the input, not starting with `0`, everything removed being `0` |
| Hex.ValueEncode | backend/services/tronService.js:122-127 | reading back a fixed-width encoding gives the number encoded (the amount word round-trips) |
| TronService.TokenOfTable | backend/services/tronService.js:13-18 | the known-token table, else a generic token: each listed contract gets its own symbol and decimals, any other contract the unknown token; decimals are 6 except USDJ's 18 |
| TronService.FindMissing | backend/services/tronService.js:126 | a contract absent from the table gets the unknown-token metadata |
| TronService.FindEntry | backend/services/tronService.js:126 | a table lookup yields the unknown token or one of the table's entries |
| TronService.MinBlockParam | backend/services/tronService.js:58-60 | `min_block_timestamp` is sent exactly when the checkpoint is present and positive, and then equals it |
| TronService.BalanceSun | backend/services/tronService.js:37-48 | a 404 or 400 answer or a missing account gives 0; otherwise the account's numeric balance (0 when not a number) |
| TronService.ToBase58 | backend/services/tronService.js:76-83 | the `41` prefix is added only when missing; a conversion that throws returns the input unchanged |
| TronService.TimestampMs | backend/services/tronService.js:85 | values from 10^12 on are milliseconds already; smaller ones are seconds and are multiplied by 1000 |
| TronService.TimestampMsIdempotent | backend/services/tronService.js:85 | for any seconds timestamp from 2001 on, normalising twice is normalising once, and the result is in milliseconds |
| TronService.TrxRecord | backend/services/tronService.js:87-113 | a native transfer gives a record exactly when the wallet is its recipient or its sender |
| TronService.TokenRecord | backend/services/tronService.js:120-147 | a TRC-20 transfer gives a record exactly when the wallet is its decoded recipient or its sender |
| TronService.NormalizeTxAsWritten | backend/services/tronService.js:73-154 | the as-written normaliser: a record is OUT exactly when its recipient is not the wallet; a token record's recipient is the zero-stripped recipient word |
| TronService.NormalizeTx | backend/services/tronService.js:73-154 | only native transfers and long-enough `a9059cbb` calls naming the wallet as recipient or sender give a record; IN exactly when the recipient is the wallet; TRX amounts in 6 decimals; a `transfer` call gives a record exactly when its full recipient word or its owner is the wallet |
| TronService.TransferAmount | backend/services/tronService.js:122-127 | a token record's amount is the 64-digit amount word read with the token's decimals |
| TronService.TransferCallData | backend/services/tronService.js:117-122 | the ABI encoding of `transfer(to, amount)`: 136 digits, the selector, the recipient word at 32..72, the amount word at 72..136 |
| TronService.DecodesIncomingTransfer | backend/services/tronService.js:115-147 | with the corrected recipient, any `transfer` call to the wallet decodes as an incoming token record carrying the encoded amount |
| TronService.AsWrittenMissesLeadingZero | backend/services/tronService.js:121 | as written, a `transfer` call to a wallet whose address digits start with `0` is never recorded as incoming |
| TronService.StrippedNotWallet | backend/services/tronService.js:121 | the zero-stripped recipient of such an address never converts to the wallet |
| TronService.SplitKinds | backend/services/tronService.js:178-185 | the native list holds only `tron` records and the token list only `token` records, at most one record per transaction |
| TronService.SplitStep | backend/services/tronService.js:181-184 | one more transaction appends its record, if any, to the list of its kind |
| TronService.MaxTimestampStep | backend/services/tronService.js:179-180 | one more transaction raises the running maximum to its timestamp when that is larger |
| TronService.MaxTimestampIsMax | backend/services/tronService.js:177-180 | the tracked maximum bounds every timestamp and is one of them, or 0 |
| TronService.CheckpointCoversFetched | backend/services/tronService.js:192 | the checkpoint stored after a refresh is at least every fetched block timestamp |
| TronService.ParseListing | backend/services/tronService.js:175-185 | the loop produces exactly the split of the listing and its largest timestamp |
| TronService.FetchAndParse | backend/services/tronService.js:161-194 | a blank address fails; otherwise the split records of the listing fetched for the checkpoint, with the largest timestamp or `None` |
| SolService.SignatureLimit | backend/services/solService.js:9 | `SOL_SIGNATURE_LIMIT`: always within [5, 50]; an unset, unparsable or zero setting gives 50; a setting within range is kept |
| SolService.SignaturePages | backend/services/solService.js:10 | `SOL_SIGNATURE_PAGES`: always within [1, 5]; an unset, unparsable or zero setting gives 2; a setting within range is kept |
| SolService.RateLimitIgnoresCase | backend/services/solService.js:21-24 | the rate-limit test gives the same answer for a message and its lower-case form |
| SolService.RateLimitFrom429 | backend/services/solService.js:21-24 | any message containing `429` is a rate-limit error |
| SolService.Signatures | backend/services/solService.js:66 | the signatures of a listing, one per entry, in order |
| SolService.Merge | backend/services/solService.js:66-72 | merging a page keeps everything listed so far as a prefix |
| SolService.MergeFacts | backend/services/solService.js:66-72 | after a merge, a signature is present exactly when it was in the list or in the page, and no signature appears twice |
| SolService.MergeKeepsNoDup | backend/services/solService.js:66-72 | a duplicate-free list stays duplicate-free after a page is merged |
| SolService.PaginateExtends | backend/services/solService.js:62-79 | paging only ever appends: the signatures listed so far stay, in order, at the front |
| SolService.NextPage | backend/services/solService.js:65-77 | one page request: an empty page stops with nothing added; a short page is merged and stops; a full page is merged and the next cursor is its last signature; the rest of the listing and of the page count are those of the loop before the request |
| SolService.PaginateNoDup | backend/services/solService.js:62-79 | the paginated listing never holds a signature twice |
| SolService.PagesRequested | backend/services/solService.js:64 | at most `SOL_SIGNATURE_PAGES` pages are requested |
| SolService.ShortFirstPageStops | backend/services/solService.js:65-74 | a short first page is the only page requested, and the listing is that page without duplicates |
| SolService.FetchPaginated | backend/services/solService.js:62-79 | the loop returns exactly the paginated listing and the number of pages requested, never more than the page limit |
| SolService.FetchedOnce | backend/services/solService.js:62-79 | the listing `fetchAndParseSolWallet` walks holds each signature once |
| SolService.RetryBounded | backend/services/solService.js:82-98 | at most 2 waits of 5000·(attempt+1) ms, each after a rate-limit error; the result is the last attempt's, which succeeded, failed otherwise, or was the last one allowed |
| SolService.GetParsedWithRetry | backend/services/solService.js:82-98 | the attempt loop returns the retry outcome and the waits it made |
| SolService.IndexOf | backend/services/solService.js:103-106 | `findIndex`: the first index holding the key, or none when the key is absent |
| SolService.FirstOther | backend/services/solService.js:114-119 | `find`: a key other than the wallet, or none when every key is the wallet |
| SolService.NormalizeTx | backend/services/solService.js:100-141 | a record exactly when there is `meta`, the wallet is an account and its balance changed; IN exactly when it rose; the amount is the absolute change in 9 decimals; the other party is never the wallet |
| SolService.Fallback | backend/services/solService.js:178-196 | the placeholder record carries the signature, no direction and an empty amount |
| SolService.RecordOf | backend/services/solService.js:174-200 | a failed fetch gives no record; a fetch that succeeded always gives one for a non-empty signature, under that signature |
| SolService.FetchRecord | backend/services/solService.js:175-196 | one signature fetched with retry and turned into its record, whose hash is the signature |
| SolService.Visit | backend/services/solService.js:171-202 | the seen-set only grows, keeps its order and stays duplicate-free; it ends holding every listed signature; every record is for a listed signature not seen before; nothing is reported when all were seen |
| SolService.VisitStep | backend/services/solService.js:171-202 | one more signature: skipped when seen, else added and its record, if any, appended |
| SolService.VisitReportsOnce | backend/services/solService.js:171-202 | no two records carry the same signature, and every reported signature is in the new seen-set |
| SolService.VisitLength | backend/services/solService.js:171-173 | the seen-set grows by at most one per listed signature |
| SolService.VisitReportsEveryUnseen | backend/services/solService.js:171-202 | a listed signature not in the seen-set and listed for the first time is reported with its record whenever its fetch gives one |
| SolService.CheckRecentReportsEveryUnseen | backend/services/solService.js:151-213 | a later check of a non-blank address with a listing reports every new signature, listed for the first time, whose fetch gives a record |
| SolService.CheckRecentSpec | backend/services/solService.js:151-213 | a blank address or failed listing changes nothing; an empty set is seeded with every listed signature and nothing is reported; otherwise the set stays within the 1000 cap and every record is new and listed |
| SolService.CheckRecentTwiceQuiet | backend/services/solService.js:151-213 | reconciling twice against the same listing reports nothing the second time (while under the cap) |
| SolService.Seed | backend/services/solService.js:163-167 | the seeding loop adds every listed signature |
| SolService.VisitAll | backend/services/solService.js:171-202 | the visiting loop computes exactly the visit |
| SolService.VisitOne | backend/services/solService.js:171-200 | one turn of the visiting loop extends the visit by one signature: a seen one changes nothing, an unseen one is marked and its record, if any, appended |
| SolService.CheckRecent | backend/services/solService.js:151-213 | `checkRecentTransactionsForAddress` returns the updated seen-set and the new records the specification gives |
| SolService.Records | backend/services/solService.js:228-257 | at most one record per listed signature, each under a listed signature |
| SolService.RecordsStep | backend/services/solService.js:229-256 | one more signature adds its record exactly when its fetch gives one |
| SolService.RecordsPrefix | backend/services/solService.js:229-256 | the records of a prefix of the listing are a prefix of the records |
| SolService.RecordsReportEvery | backend/services/solService.js:229-256 | every listed signature whose fetch gives a record contributes it, right after the records of the signatures before it |
| SolService.RecordsInOrder | backend/services/solService.js:229-256 | records keep the listing order of their signatures |
| SolService.FetchAndParse | backend/services/solService.js:215-265 | a blank address fails; otherwise the records of the paginated listing and no token records |
| SubscriptionManager.AfterStart | backend/services/solanaSubscriptionManager.js:59-96 | an address that is empty or shorter than 32 after trimming leaves the counts alone; a watched address gains one; an unwatched one gets 1, or stays absent when the set-up throws |
| SubscriptionManager.AfterStop | backend/services/solanaSubscriptionManager.js:101-122 | a blank address changes nothing; a count of 2 or more drops by one; otherwise the entry is removed |
| SubscriptionManager.StartsCount | backend/services/solanaSubscriptionManager.js:59-64 | `n` starts of an unwatched address set its count to `n` and leave the others |
| SubscriptionManager.StopsCount | backend/services/solanaSubscriptionManager.js:101-121 | `j` stops after `k > j` starts leave the count at `k - j` |
| SubscriptionManager.Balanced | backend/services/solanaSubscriptionManager.js:59-122 | after `n` starts the first `n - 1` stops keep the address watched and the `n`-th restores the counts exactly |
| SubscriptionManager.StopUnwatched | backend/services/solanaSubscriptionManager.js:101-106 | stopping an address nobody watches changes no count |
| SubscriptionManager.Subscriptions.constructor | backend/services/solanaSubscriptionManager.js:9-12 | no counts, listeners or timers at start |
| SubscriptionManager.Subscriptions.Subscribed | backend/services/solanaSubscriptionManager.js:125-127 | `getSubscribedSolAddresses`: every listened address exactly once |
| SubscriptionManager.Subscriptions.Start | backend/services/solanaSubscriptionManager.js:59-96 | the counts become `AfterStart`; only the first watcher of an eligible address, with a listener set up, adds its state with an empty seen-set; the invariant (listeners = counted addresses, counts ≥ 1, timers only for listened addresses) is kept |
| SubscriptionManager.Subscriptions.RollBack | backend/services/solanaSubscriptionManager.js:91-93 | a listener set-up that throws takes the first count back, leaving the counts as they were before the start; nothing else changes |
| SubscriptionManager.Subscriptions.Stop | backend/services/solanaSubscriptionManager.js:101-122 | the counts become `AfterStop`; at zero the timer and the listener go as well |
| SubscriptionManager.Subscriptions.TearDown | backend/services/solanaSubscriptionManager.js:105-118 | the count, the armed timer and the listener of the address go; the cancelled timer and removed listener are returned |
| SubscriptionManager.Subscriptions.OnActivity | backend/services/solanaSubscriptionManager.js:29-54 | only a listened address arms a fresh timer, cancelling its previous one; nothing else changes |
| SubscriptionManager.Subscriptions.Reconcile | backend/services/solanaSubscriptionManager.js:36-51 | the seen-set becomes the reconciliation's; new records are saved as Solana records and announced only when the save succeeded |
| SubscriptionManager.Subscriptions.SaveAndAnnounce | backend/services/solanaSubscriptionManager.js:45-48 | no new records: nothing is written or announced; otherwise the rows become those of the Solana save, and the announcement goes out only when the save succeeded |
| SubscriptionManager.Subscriptions.Fire | backend/services/solanaSubscriptionManager.js:36-53 | only the timer still armed for the address runs: it is disarmed and the address reconciled, its new records saved as Solana records and, when that save succeeds, announced to the webhook registered for the address; a stale timer does nothing |
| SubscriptionManager.FirstCheckSeedsOnly | backend/services/solanaSubscriptionManager.js:68-86 | the first reconciliation of a new listener reports nothing and seeds the set with every listed signature |
| RunningBots.Or | backend/services/runningBotsStore.js:41 | the JavaScript `or` of two strings is empty exactly when both are |
| RunningBots.KeyOf | backend/services/runningBotsStore.js:10-15 | no key for an empty address; otherwise `type:address` trimmed, lower-cased for Ethereum and BNB only |
| RunningBots.ConfigOf | backend/services/runningBotsStore.js:39-49 | every field trimmed; the Ethereum wallet falls back to the legacy address |
| RunningBots.KeysOfHas | backend/services/runningBotsStore.js:26-30 | every target with an address contributes its key |
| RunningBots.KeysOfOnly | backend/services/runningBotsStore.js:26-30 | only targets with an address contribute keys |
| RunningBots.Lookup | backend/services/runningBotsStore.js:86-90 | `getWebhookForWallet`: a webhook only for a non-empty address whose key is registered with a non-empty URL |
| RunningBots.RegisteredEffect | backend/services/runningBotsStore.js:52-60 | registering adds exactly the configuration's keys, each mapped to its webhook, and keeps every other entry |
| RunningBots.StepEffect | backend/services/runningBotsStore.js:54 | one registering statement adds exactly its key |
| RunningBots.AddKeysCleared | backend/services/runningBotsStore.js:17-60 | every key `addBotToRunning` sets is among those `clearWebhooksForBot` deletes |
| RunningBots.LookupAfterRegister | backend/services/runningBotsStore.js:52-60 | after a bot with a webhook is added, each of its addresses looks up to that webhook |
| RunningBots.LookupAfterClear | backend/services/runningBotsStore.js:66-74 | after a bot is removed, none of its addresses has a webhook |
| RunningBots.LookupUnaffected | backend/services/runningBotsStore.js:17-31 | clearing a bot leaves the lookup of every wallet it does not name unchanged |
| RunningBots.SharedWalletKey | backend/services/runningBotsStore.js:36-74 | two running bots on one wallet share its key: the later one's webhook wins, and removing the earlier bot silences the wallet |
| RunningBots.Registry.constructor | backend/services/runningBotsStore.js:7-8 | empty registry and webhook index |
| RunningBots.Registry.Configs | backend/services/runningBotsStore.js:79-81 | `getRunningConfigs`: one configuration per running bot, in insertion order |
| RunningBots.Registry.WebhookFor | backend/services/runningBotsStore.js:86-90 | the webhook lookup on the registry's current index |
| RunningBots.Registry.ClearWebhooks | backend/services/runningBotsStore.js:17-31 | exactly the configuration's keys are deleted |
| RunningBots.Registry.Unregister | backend/services/runningBotsStore.js:26-30 | the deleting loop removes exactly the keys of its targets |
| RunningBots.AfterRemove | backend/services/runningBotsStore.js:66-74 | the removed id has no entry and every other entry is kept |
| RunningBots.AfterAdd | backend/services/runningBotsStore.js:36-61 | the bot's new configuration replaces its entry and its id moves to the end of the order |
| RunningBots.RemovedBotSilent | backend/services/runningBotsStore.js:66-74 | after a running bot is removed, no address it was registered with has a webhook |
| RunningBots.RemoveKeepsOthers | backend/services/runningBotsStore.js:66-74 | removing a bot keeps every other running bot's entry and place in the order |
| RunningBots.AddedBotAlerted | backend/services/runningBotsStore.js:36-61 | after a bot with a webhook is added, each of its addresses looks up to that webhook |
| RunningBots.Registry.Remove | backend/services/runningBotsStore.js:66-74 | an unknown id changes nothing; a known one loses its entry, its place in the order and its webhook keys: the state is `AfterRemove` of the old one |
| RunningBots.Registry.Add | backend/services/runningBotsStore.js:36-61 | an id-less bot is ignored; otherwise the old entry is removed, the new configuration appended last and its keys registered: the state is `AfterAdd` of the old one |
| RunningBots.Registry.Enter | backend/services/runningBotsStore.js:51-60 | a bot that is not running is entered last in the order with its configuration and its keys registered; the invariant (order without repeats, exactly the running ids, no empty id) is kept |
| RunningBots.Registry.RegisterConfig | backend/services/runningBotsStore.js:52-60 | the six registering statements, none for an empty webhook |
| RunningBots.Without | backend/services/runningBotsStore.js:72 | removing an id keeps every other id, in order, without duplicates |
| PriceService.CacheMs | backend/services/priceService.js:7 | the setting, unless it is unset, unparsable or zero, when 600000 ms is used; never zero |
| PriceService.PriceOf | backend/services/priceService.js:33-36 | the numeric quote, or 0 when missing or invalid |
| PriceService.PricesOf | backend/services/priceService.js:32-37 | each coin's price is its CoinGecko id's quote |
| PriceService.GetPricesSpec | backend/services/priceService.js:17-43 | a fresh cache is served whatever the network says; a failed request serves the last prices, else zeros; an empty body gives zeros; a body replaces the cache, stamped with now |
| PriceService.CacheChangesOnlyOnFetch | backend/services/priceService.js:17-43 | the cache changes only through a successful 200 fetch, and then holds the returned prices and the call's clock |
| PriceService.FetchedThenServed | backend/services/priceService.js:19-21 | after a fetch, every call within the time to live gets the same prices whatever its reply |
| PriceService.CachedSurvivesFailure | backend/services/priceService.js:40-42 | once prices are cached, a failing request never returns zeros in their place |
| PriceService.PriceCache.constructor | backend/services/priceService.js:7-8 | empty cache and the configured time to live |
| PriceService.PriceCache.GetPrices | backend/services/priceService.js:17-43 | `getPrices` updates the cache in place as the specification says |
| PriceService.PriceCache.GetBtcUsd | backend/services/priceService.js:45-48 | the BTC field of `getPrices` |
| PriceService.PriceCache.GetLtcUsd | backend/services/priceService.js:49-52 | the LTC field of `getPrices` |
| PriceService.PriceCache.GetSolUsd | backend/services/priceService.js:53-56 | the SOL field of `getPrices` |
| PriceService.PriceCache.GetTrxUsd | backend/services/priceService.js:57-60 | the TRX field of `getPrices` |
| WalletService.TxTypeOf | backend/services/walletService.js:12-20 | `walletTypeToTxType`: always one of bnb, tron, btc, ltc, sol, eth; the chain names map case-insensitively, anything else to eth |
| WalletService.NativeToken | backend/services/walletService.js:23 | the native symbol per chain, ETH for anything else; always three letters |
| WalletService.TokenValue | backend/services/walletService.js:24 | a token transfer keys on its trimmed token (possibly empty); any other record on its own token, else the native symbol, never empty |
| WalletService.Candidates | backend/services/walletService.js:27-33 | only records with a non-blank trimmed hash are kept, each keyed by hash, wallet and token |
| WalletService.CandidatesKeepNonBlank | backend/services/walletService.js:28-32 | every record with a non-blank hash becomes a candidate |
| WalletService.Fresh | backend/services/walletService.js:36-40 | `toInsert`: exactly the candidates whose key was not found |
| WalletService.Landing | backend/services/walletService.js:64-79 | the writes that succeed are candidates whose key was absent |
| WalletService.LandingPrefix | backend/services/walletService.js:64-79 | a prefix of the batch never lands more writes than the batch |
| WalletService.FailedMembers | backend/services/walletService.js:65-70 | an index is in `failedIndices` exactly when its write fails |
| WalletService.LandingDistinct | backend/services/walletService.js:67-70 | the successful writes are on pairwise distinct keys, so a key repeated in a batch is written once |
| WalletService.LandingCovers | backend/services/walletService.js:67-72 | after the insert every key of the batch is present |
| WalletService.StoredWalletType | backend/services/walletService.js:45 | the stored wallet type is never empty |
| WalletService.StoredTxType | backend/services/walletService.js:44 | the stored type is never empty, and keeps any given type other than eth |
| WalletService.Doc | backend/services/walletService.js:43-61 | the document carries the candidate's key hash and token |
| WalletService.Announce | backend/services/walletService.js:80 | a reported record is the input record with only its wallet type filled in |
| WalletService.Announced | backend/services/walletService.js:78-80 | one reported record per landed candidate, in order |
| WalletService.InsertStep | backend/services/walletService.js:67 | one document: it lands exactly when its key is not yet present, and then it alone is added |
| WalletService.InsertAll | backend/services/walletService.js:67 | the insert adds exactly the batch's keys and rewrites no stored row |
| WalletService.SaveOutcome | backend/services/walletService.js:22-82 | `saveTransactions`' result: `newCount` equals the number of reported records, at most the input's; the rethrown duplicate-key error needs a concurrent writer |
| WalletService.ReportedAreNew | backend/services/walletService.js:37-80 | every reported record has a non-blank hash and a key absent before the call, and no two share a key |
| WalletService.SavedAreStored | backend/services/walletService.js:37-76 | after a save every key of the batch is stored, and every old row is unchanged |
| WalletService.AllStoredNoOp | backend/services/walletService.js:40-41 | a batch whose keys are all stored returns `{0, []}` and writes nothing |
| WalletService.ReplayIsNoOp | backend/services/walletService.js:22-82 | saving the same batch again inserts and reports nothing |
| WalletService.SameHashDistinctTokens | backend/services/walletService.js:24-32 | one hash with two tokens gives two keys, both stored and reported |
| WalletService.RepeatedInBatchReportedOnce | backend/services/walletService.js:64-80 | a record repeated within a batch is written and reported once |
| WalletService.CandidatesOfPair | backend/services/walletService.js:27-33 | two records with non-blank hashes give their two candidates, in order |
| WalletService.NoRaceNoError | backend/services/walletService.js:64-80 | without a concurrent writer the save never throws, and every record not yet stored whose key no other record of the batch shares is reported |
| WalletService.AllRacedIsError | backend/services/walletService.js:68-72 | when concurrent writers took every pending key, the duplicate-key error is rethrown |
| WalletService.Storage.constructor | backend/services/walletService.js:1-2 | both collections empty |
| WalletService.Storage.SaveTransactions | backend/services/walletService.js:22-82 | the result is `SaveOutcome`, the rows become `RowsAfterSave`, and the wallet documents are untouched |
| WalletService.Storage.NoFailureLands | backend/services/walletService.js:66-81 | a non-empty batch with no failed write lands its first document, so the batch is not reported as all duplicates |
| WalletService.Storage.NotStored | backend/services/walletService.js:36-40 | the probe returns exactly the fresh candidates |
| WalletService.Storage.InsertMany | backend/services/walletService.js:64-76 | the insert loop adds exactly the landing writes and returns the failed indices and the inserted count |
| WalletService.Storage.SaveBatches | backend/services/walletService.js:115-117 | the two saves, records then token records, as `SaveBoth` says |
| WalletService.Storage.Refresh | backend/services/walletService.js:95-275 | `addOrUpdateWallet*` does to both collections, the result and the alert what `RefreshSpec` says |
| WalletService.Storage.RefreshFetched | backend/services/walletService.js:107-123 | the part after a successful fetch is `AfterFetch` |
| WalletService.Storage.Conclude | backend/services/walletService.js:115-123 | the part after both saves is `AfterSaves` and writes no row |
| WalletService.Storage.RefreshOne | backend/services/walletService.js:326-332 | one wallet of `refreshAllWallets`: the collections and the alert are those of a forced Ethereum refresh with Discord on, and the report is ok exactly when that refresh succeeds |
| WalletService.Storage.RefreshAll | backend/services/walletService.js:323-335 | the reports, the alerts and the collections are exactly those of `RefreshAllSpec`: every listed address refreshed in turn, each failure recorded and the loop continued |
| WalletService.ReportOf | backend/services/walletService.js:328-331 | a report names its address, is ok exactly when the refresh succeeded, and otherwise carries its error |
| WalletService.AlertList | backend/services/walletService.js:328 | a refresh hands off at most one alert |
| WalletService.RefreshAllSpec | backend/services/walletService.js:323-335 | one report per listed address |
| WalletService.RefreshEach | backend/services/walletService.js:326-333 | the loop with a given body: one report per listed address |
| WalletService.RefreshEachUnfold | backend/services/walletService.js:326-333 | the run over one more address is one more pass, its report and alert appended, after the run over the earlier ones |
| WalletService.RefreshEachPrefix | backend/services/walletService.js:326-333 | the reports over the first addresses are the first reports over all of them |
| WalletService.RefreshEachReport | backend/services/walletService.js:326-333 | report `i` is that of the body run on address `i` against the collections the earlier addresses left |
| WalletService.Storage.RefreshNext | backend/services/walletService.js:326-332 | one pass of the loop extends the run over the earlier addresses by address `i` |
| WalletService.RefreshAllReport | backend/services/walletService.js:326-333 | report `i` is that of the forced Ethereum refresh of address `i` against the collections the earlier addresses left |
| WalletService.RefreshAllShape | backend/services/walletService.js:326-333 | each report names its address in list order, is ok exactly without an error, and an invalid address is reported as such |
| WalletService.RefreshAllKeepsRows | backend/services/walletService.js:323-335 | refreshing every wallet never drops or rewrites a stored transaction row |
| WalletService.KeyBatch | backend/services/walletService.js:27-33 | the keying loop builds exactly the candidates |
| WalletService.Reported | backend/services/walletService.js:78-80 | the reporting filter skips exactly the failed indices |
| WalletService.NormalizeAddress | backend/services/walletService.js:97-100 | EVM: valid exactly when the trimmed, lower-cased address starts with `0x` and is at least 40 long; other chains: exactly when the trimmed address is non-empty; the error names which |
| WalletService.NormalizeIdempotent | backend/services/walletService.js:97-104 | a normalised address normalises to itself, so a second refresh finds the stored wallet |
| WalletService.NextTronCheckpoint | backend/services/walletService.js:173-175 | a positive batch maximum moves the checkpoint to the larger of the two; otherwise it stays |
| WalletService.CheckpointMonotone | backend/services/walletService.js:173-175 | the checkpoint never decreases |
| WalletService.CheckpointStable | backend/services/walletService.js:173-175 | a later batch no newer than the checkpoint leaves it where it is |
| WalletService.NotifyRequest | backend/services/walletService.js:84-93 | an alert exactly when there are records and a webhook is registered for (walletType, address); it carries that webhook and those records |
| WalletService.StoppedBotNoAlert | backend/services/walletService.js:84-87 | after a bot leaves the running set, none of its wallets raises an alert |
| WalletService.Fetched | backend/services/walletService.js:170-177 | the document after a fetch: the chain's new holding, `lastFetched` now, the other chains' holdings kept; only Tron moves the checkpoint |
| WalletService.FetchedLater | backend/services/walletService.js:182-185 | touching `lastFetched` again changes nothing else |
| WalletService.MinBlockTs | backend/services/walletService.js:167-168 | only Tron passes a checkpoint to the fetch |
| WalletService.RefreshChain | backend/services/walletService.js:313-321 | `refreshWallet`: each chain code, in any case, selects its chain; anything else selects Ethereum |
| WalletService.RefreshSpec | backend/services/walletService.js:95-275 | an invalid address changes nothing and reports why; a stored wallet without a forced refresh is returned as is; a failed fetch changes nothing; on success the wallet is stored, and an alert carries exactly the newly reported records |
| WalletService.SaveBoth | backend/services/walletService.js:179-181 | the two saves never drop or rewrite a stored row |
| WalletService.SaveBothCovers | backend/services/walletService.js:179-180 | after both saves succeed, every key of both batches is stored |
| WalletService.SaveBothStored | backend/services/walletService.js:179-181 | saving batches whose keys are all stored reports and writes nothing |
| WalletService.AfterFetch | backend/services/walletService.js:170-187 | after a fetch no stored row is dropped or rewritten, and the wallet holds the fetched document |
| WalletService.AfterSaves | backend/services/walletService.js:179-187 | a failed save reports its error and alerts nobody; a successful run reports exactly the records the two saves reported, in their order, and hands them to the webhook registered for the wallet exactly when there are any and notifying is on |
| WalletService.StoreFetchedKeepsWallets | backend/services/walletService.js:170-177 | storing a fetched document loses no wallet and moves no checkpoint backwards |
| WalletService.FetchedKeepsCheckpoint | backend/services/walletService.js:173-175 | the fetched document never lowers an existing Tron checkpoint |
| WalletService.RefreshKeepsHistory | backend/services/walletService.js:157-188 | a refresh loses no wallet, and no Tron checkpoint moves backwards |
| WalletService.AfterFetchKeepsWallets | backend/services/walletService.js:170-187 | what follows a fetch keeps every wallet and checkpoint |
| WalletService.RefreshKeepsRows | backend/services/walletService.js:157-188 | a refresh never drops or rewrites a stored transaction row |
| WalletService.FetchedKeepsRows | backend/services/walletService.js:157-188 | a refresh that fetches keeps every stored transaction row |
| WalletService.WalletSavedFirst | backend/services/walletService.js:170-180 | the wallet document and checkpoint are saved before the records, so they stay even when a save fails |
| WalletService.AlertOnlyToRegistered | backend/services/walletService.js:84-87 | an alert goes only to the webhook the running-bot registry holds for the wallet |
| WalletService.AfterFetchReplayQuiet | backend/services/walletService.js:179-187 | saving the same fetch twice: the second run reports nothing, alerts nobody and writes no row |
| WalletService.RefreshAlertsNewRecords | backend/services/walletService.js:168-187 | a refresh that fetches reports exactly what its saves reported, and new records on a wallet with a registered webhook, outside a silent Solana refresh, are posted to that webhook |
| WalletService.RefreshFetches | backend/services/walletService.js:157-168 | with a valid address, no short-cut and a successful fetch, a refresh is the after-fetch step |
| WalletService.RefreshReplayQuiet | backend/services/walletService.js:157-188 | two forced refreshes with the same data: the second reports nothing, raises no alert and writes no row |
| DiscordService.BuilderFor | backend/services/discordService.js:253-269 | Bitcoin, Litecoin, Solana and Tron records (type trimmed, Ethereum when missing) go to their own builder, exactly those; everything else to the EVM builder |
| DiscordService.BuilderPerChain | backend/services/discordService.js:253-269 | each chain's own records reach its builder; BNB, Ethereum and a missing type reach the EVM one |
| DiscordService.DirectionOf | backend/services/discordService.js:40-43 | Incoming exactly when the upper-cased `inOut` is IN, Outgoing exactly when it is OUT, else Transfer |
| DiscordService.ExactAmount | backend/services/discordService.js:33-36 | the trimmed amount when non-empty, else `0`; never empty |
| DiscordService.ExactAmountIdempotent | backend/services/discordService.js:33-36 | rendering an amount twice gives the same text |
| DiscordService.Shorten | backend/services/discordService.js:137-138 | a counterparty no longer than the bound is kept; a longer one becomes its first and last `keep` characters around `...` |
| DiscordService.StatusText | backend/services/discordService.js:47 | a missing status reads as confirmed |
| DiscordService.BuildEmbed | backend/services/discordService.js:39-269 | builder and direction as above; BTC/LTC blue when pending, Solana/Tron grey when failed, otherwise green for IN and red for anything else; EVM colour by chain only; chain builders show `exactAmount`; Solana shortens the counterparty 8…8 over 16, Tron 7…7 over 14 |
| DiscordService.Embeds | backend/services/discordService.js:283 | one embed per record of a chunk, in order |
| DiscordService.ChunkAt | backend/services/discordService.js:281-282 | every chunk holds one to ten records |
| DiscordService.Chunks | backend/services/discordService.js:281-282 | a batch of `n` records takes ceil(n/10) chunks |
| DiscordService.ChunkIndex | backend/services/discordService.js:281 | the loop reaches chunk `k` exactly when `10k < n` |
| DiscordService.EmbedChunks | backend/services/discordService.js:281-284 | one message body per chunk |
| DiscordService.ChunksTail | backend/services/discordService.js:281-282 | after the first ten, the chunks are those of the rest |
| DiscordService.ChunkShift | backend/services/discordService.js:281-282 | chunk k+1 of a batch is chunk k of what follows its first ten records |
| DiscordService.ChunkCountTail | backend/services/discordService.js:281 | dropping the first ten records of a batch longer than ten takes exactly one message less |
| DiscordService.ChunksCover | backend/services/discordService.js:281-282 | concatenated, the chunks are the input in order, each of one to ten records |
| DiscordService.FirstRejected | backend/services/discordService.js:290-292 | the first rejected post at or after `k`, with every earlier one accepted, or none when all are accepted |
| DiscordService.FlattenEmbeds | backend/services/discordService.js:281-284 | the messages carry, concatenated, the embeds of all records in order |
| DiscordService.EmbedsAppend | backend/services/discordService.js:283 | building embeds distributes over concatenation |
| DiscordService.AllAccepted | backend/services/discordService.js:276-294 | with every post accepted, ceil(n/10) messages go out, together carrying every record's embed in order |
| DiscordService.StopsAtRejection | backend/services/discordService.js:290-292 | the first rejected post ends the batch: exactly the chunks up to it are posted and its status is thrown |
| DiscordService.SendBatch | backend/services/discordService.js:276-294 | `sendTransactionAlertsBatch`: nothing for a missing or empty URL, an empty list or a URL without a webhook prefix; otherwise the chunk posts the delivery specification gives |
| DiscordService.PostChunks | backend/services/discordService.js:281-293 | the `i += 10` loop posts the chunks in order up to and including the first rejected one |
| Server.Setting | backend/server.js:67-72 | the parsed setting or its default: the default when unset or unparsable, the value when non-zero; zero only when the default is |
| Server.ResyncSchedule | backend/server.js:212-213 | the resync is scheduled exactly when the setting (default 30) is positive, every that many minutes; unset means every 30 |
| Server.ResyncOffOnlyWhenNegative | backend/server.js:212-213 | only a negative setting switches the resync off |
| Server.PollerChains | backend/server.js:110-198 | each poller's code selects its own chain in `refreshWallet`; none selects Solana |
| Server.EthereumAddress | backend/server.js:77-80 | an address exactly when `walletEthereum`, falling back to `walletAddress`, is not blank, and then that value trimmed |
| Server.BnbAddress | backend/server.js:81-84 | an address exactly when the value is not blank and starts with `0x`, and then that value trimmed |
| Server.LongEnough | backend/server.js:85-99 | the Tron, Bitcoin, Litecoin and Solana rule: an address exactly when the trimmed value reaches the minimum length, and then the trimmed value |
| Server.Selector | backend/server.js:77-96 | a selected address is never empty |
| Server.SolanaAddress | backend/server.js:97-100 | an address exactly when the trimmed value is at least 32 long |
| Server.Targets | backend/server.js:106-116 | a tick refreshes at most one address per running bot |
| Server.TargetsSelected | backend/server.js:106-116 | an address is refreshed exactly when some running bot's selector gives it |
| Server.Ticked | backend/server.js:106-116 | one result per refreshed address, at most one alert each |
| Server.TickStep | backend/server.js:108-115 | one more address extends the tick by its refresh, run on the collections the previous one left |
| Server.FailureContained | backend/server.js:109-113 | a failing refresh is recorded as an error and leaves the collections and alerts as they were for the next address |
| Server.TargetsStep | backend/server.js:106-108 | one more running bot adds its selected address, if any |
| Server.Tick | backend/server.js:102-120 | one tick: the addresses refreshed are exactly the selected ones in registry order, one pause after each, each refresh forced, the collections those of the sequential run |
| Server.TickOne | backend/server.js:106-115 | one turn of the tick loop: a configuration whose selector gives an address adds that address, one pause and its forced refresh to the run; any other configuration changes nothing |
| Server.RefreshTarget | backend/server.js:109-113 | the guarded `refreshWallet` call extends the run by one address |
| BotRoutes.NormalizeEthereum | backend/routes/botRoutes.js:15-18 | an address exactly when the trimmed, lower-cased value starts with `0x` and is at least 40 long, and then that value |
| BotRoutes.ToLowerKeepsEnds | backend/routes/botRoutes.js:16 | lower-casing a trimmed string leaves it trimmed |
| BotRoutes.NormalizeEthereumIdempotent | backend/routes/botRoutes.js:15-18 | a normalised address normalises to itself |
| BotRoutes.TrimAddr | backend/routes/botRoutes.js:20-22 | the trimmed value exactly when it is not blank |
| BotRoutes.EvmAddress | backend/routes/botRoutes.js:24-32 | `getEthereumAddress`/`getBnbAddress`: the normalised address when valid, else the raw value trimmed, nothing for an empty value |
| BotRoutes.WalletRefreshes | backend/routes/botRoutes.js:61-72 | at most six refreshes, each with an address; only the Ethereum one lets its failure through |
| BotRoutes.AppendCaught | backend/routes/botRoutes.js:63-72 | appending a caught refresh of a non-Ethereum chain keeps that rule |
| BotRoutes.AppendInOrder | backend/routes/botRoutes.js:61-72 | appending a refresh of a later chain keeps the chain order |
| BotRoutes.RefreshesInChainOrder | backend/routes/botRoutes.js:61-72 | Ethereum, BNB, Tron, Bitcoin, Litecoin, Solana, each at most once; the Solana wallet is refreshed exactly when the bot has a Solana address |
| BotRoutes.NewBot | backend/routes/botRoutes.js:49-58 | the stored bot: every field trimmed, not running |
| BotRoutes.Edited | backend/routes/botRoutes.js:84-96 | an edit keeps the id, the running flag and the legacy address |
| BotRoutes.Routes.constructor | backend/routes/botRoutes.js:11 | no bots, over the given registry and subscriptions |
| BotRoutes.EthereumRefresh | backend/routes/botRoutes.js:60-61 | at most one refresh, the first of the bot's refreshes: the Ethereum one awaited without a catch |
| BotRoutes.SaveAndRefresh | backend/routes/botRoutes.js:97-99 | the save fails exactly on an empty name; otherwise the request fails exactly when the bot has an Ethereum address and its refresh throws |
| BotRoutes.Routes.Create | backend/routes/botRoutes.js:43-77 | a blank or missing name is refused with nothing stored; otherwise the new bot is stored, and either all its wallets are refreshed or, when the Ethereum refresh throws, the request fails after that refresh alone |
| BotRoutes.Routes.Patch | backend/routes/botRoutes.js:79-118 | unknown id: bots, counts and registry unchanged; otherwise the registry is that of removing the bot (its entry, order place and webhook keys gone, every other entry kept) and its old Solana address is released; an empty name leaves the stored bot unchanged, a throwing Ethereum refresh stops after storing the edit, and only a completed edit of a running bot is then added back (`AfterAdd`: new configuration last, its webhooks registered) with its new address acquired |
| BotRoutes.Routes.Subscribe | backend/routes/botRoutes.js:139-140 | the count becomes that of starting the bot's trimmed Solana address, if any |
| BotRoutes.Routes.Unsubscribe | backend/routes/botRoutes.js:125-126 | the count becomes that of stopping the bot's trimmed Solana address, if any |
| BotRoutes.Routes.Delete | backend/routes/botRoutes.js:120-132 | unknown id: bots, counts and registry unchanged; otherwise the bot is deleted, the registry is `AfterRemove` of it (entry, order place and webhook keys gone, others kept), and its Solana address released |
| BotRoutes.Routes.Run | backend/routes/botRoutes.js:134-146 | unknown id: bots, counts and registry unchanged; otherwise the bot is marked running, the registry is `AfterAdd` of it (configuration last, webhooks registered), and its Solana address acquired |
| BotRoutes.Routes.Stop | backend/routes/botRoutes.js:148-159 | unknown id: bots and registry unchanged; otherwise the bot is marked stopped, the registry is `AfterRemove` of it (entry, order place and webhook keys gone, others kept), and the subscription counts are left alone |
| BotRoutes.RunStopRunDeleteLeaks | backend/routes/botRoutes.js:120-159 | run, stop, run, delete of one bot from a balanced start leaves no bot but the Solana address still counted once |
| BotRoutes.WatchersUpdate | backend/routes/botRoutes.js:96-113 | replacing a bot's record changes the watchers of an address only by that bot |
| BotRoutes.AcquireBalanced | backend/routes/botRoutes.js:138-140 | a new running watcher plus its acquire keeps counts equal to running watchers |
| BotRoutes.AcquireCounts | backend/routes/botRoutes.js:139-140 | the acquire adds one at the bot's address only, matching the new tally there |
| BotRoutes.AcquireShape | backend/routes/botRoutes.js:139-140 | an acquire adds one for an eligible address and changes nothing otherwise |
| BotRoutes.TallyAdded | backend/routes/botRoutes.js:138-141 | a new running watcher adds one to the tally of an eligible address |
| BotRoutes.OthersBalanced | backend/routes/botRoutes.js:138-141 | the addresses an update leaves alone stay balanced |
| BotRoutes.ReleaseBalanced | backend/routes/botRoutes.js:124-126 | removing a running watcher plus its release keeps the counts balanced |
| BotRoutes.RunFixedBalanced | backend/routes/botRoutes.js:134-146 | the corrected run keeps the counts equal to running watchers |
| BotRoutes.StopFixedBalanced | backend/routes/botRoutes.js:148-159 | the corrected stop, which releases, keeps the counts balanced |
| BotRoutes.DeleteFixedBalanced | backend/routes/botRoutes.js:120-132 | the corrected delete, which releases only for a running bot, keeps the counts balanced |
| BotRoutes.PatchFixedBalanced | backend/routes/botRoutes.js:79-118 | the corrected edit keeps the counts balanced |
| BotRoutes.PatchRunningBalanced | backend/routes/botRoutes.js:94-113 | editing a running bot (release the old address, acquire the new) keeps the counts balanced |
| BotRoutes.PatchStoppedBalanced | backend/routes/botRoutes.js:94-96 | editing a stopped bot changes no watcher and no count |
| Utxo.ConfirmedListing | backend/services/btcService.js:42-54 | paging only appends: the records gathered so far stay, in order, at the front |
| Utxo.PagesRequested | backend/services/btcService.js:44 | at most five confirmed pages are requested |
| Utxo.ConfirmedPages | backend/services/btcService.js:44-51 | the first page is always requested and kept whole |
| Utxo.FetchTransactions | backend/services/btcService.js:36-56 | the pagination loop returns the mempool records followed by the confirmed listing, and the number of pages requested, at most five |
| Utxo.NextPage | backend/services/btcService.js:44-54 | one page request: the page is appended; a short page or one without a last id stops the loop, otherwise the next cursor is its last id; the rest of the listing and of the page count are those of the loop before the request |
| Utxo.ReceivedAppend | backend/services/btcService.js:61-63 | what the wallet receives adds up over any split of the outputs |
| Utxo.ReceivedNone | backend/services/btcService.js:61-63 | outputs to other addresses add nothing |
| Utxo.SentNone | backend/services/btcService.js:64-66 | inputs from other addresses take nothing |
| Utxo.SumReceived | backend/services/btcService.js:61-63 | the output loop sums exactly the values paid to the wallet |
| Utxo.SumSent | backend/services/btcService.js:64-66 | the input loop sums exactly the values spent from the wallet |
| Utxo.FindForeignInput | backend/services/btcService.js:78 | the index of the first input whose previous output has a non-empty address other than the wallet, none when no input has one |
| Utxo.FindForeignOutput | backend/services/btcService.js:83 | the index of the first output with a non-empty address other than the wallet, none when no output has one |
| Utxo.Sender | backend/services/btcService.js:78-79 | the address of the first input from a foreign address; when there is none, the first input's address, or "" without one |
| Utxo.Recipient | backend/services/btcService.js:83-84 | the first foreign output address; when there is none, the first output's address, or "" without one |
| Utxo.SenderForeign | backend/services/btcService.js:78-79 | a foreign input anywhere makes the sender a non-empty address other than the wallet |
| Utxo.RecipientNoFallThrough | backend/services/btcService.js:83-84 | a first output without an address, followed only by change to the wallet, gives recipient "": the fallback is output 0, not a later output |
| Utxo.Normalized | backend/services/btcService.js:58-103 | no record exactly when received equals sent; IN exactly when received exceeds sent, OUT exactly when it falls short; the amount is the net change in 8 decimals; an IN record is from `Sender` of the inputs to the wallet, an OUT record from the wallet to `Recipient` of the outputs; a status only for Bitcoin, confirmed or pending |
| Utxo.Unrelated | backend/services/btcService.js:58-68 | a transaction that neither pays nor spends the wallet gives no record |
| Utxo.NormalizeTx | backend/services/btcService.js:58-103 | the two summing loops and the branches compute exactly `Normalized` |
| Utxo.Records | backend/services/btcService.js:117-121 | at most one record per transaction, each of the coin's wallet type and IN or OUT |
| Utxo.FetchAndParse | backend/services/btcService.js:105-129 | a blank address fails with "… address is required"; otherwise the records of the mempool and confirmed listing, in order, and no token records |
| Utxo.NormalizeAll | backend/services/btcService.js:117-121 | the loop keeps, in order, exactly the records that normalise |
| BtcService.ApiUrl | backend/services/btcService.js:11-16 | mainnet exactly when the setting is unset or mainnet in any case, testnet4 exactly when it says testnet4, else testnet |
| BtcService.ApiUrlIgnoresCase | backend/services/btcService.js:12 | the setting is read without regard to case |
| BtcService.BalanceSat | backend/services/btcService.js:18-31 | 0 for 404, 400, no body or a non-numeric sum; otherwise funded less spent, floored at 0 |
| LtcService.ApiUrl | backend/services/ltcService.js:11-14 | mainnet exactly when the setting is unset or mainnet in any case, else testnet |
| LtcService.BalanceLitoshi | backend/services/ltcService.js:16-28 | 0 for 404, 400 or no body; a missing sum counts as 0; funded less spent, floored at 0 |
| LtcService.BalanceRulesCompared | backend/services/ltcService.js:23-25 | with both sums numbers the Litecoin and Bitcoin rules agree; with the spent sum missing Bitcoin reports 0 and Litecoin the funded sum |
| LtcService.RecordsWithoutStatus | backend/services/ltcService.js:83-97 | a Litecoin record is the Bitcoin record of the same transaction with Litecoin names and no status |
| Dashboard.Position | frontend/src/components/Dashboard.jsx:8-15 | every chain has a place in the display list, holding that chain |
| Dashboard.ChainsWithWallet | frontend/src/components/Dashboard.jsx:54 | the filter keeps exactly the listed chains whose address is set, and never more |
| Dashboard.ChainsWithWalletOrdered | frontend/src/components/Dashboard.jsx:54 | filtering an ordered list leaves it in display order |
| Dashboard.DisplayOrderTail | frontend/src/components/Dashboard.jsx:8-15 | the tail of an ordered list is ordered |
| Dashboard.ConsInDisplayOrder | frontend/src/components/Dashboard.jsx:8-15 | a chain placed before every chain of an ordered list keeps it ordered |
| Dashboard.WalletsInBot | frontend/src/components/Dashboard.jsx:24-55 | a chain is among the bot's wallets exactly when its trimmed address, Ethereum falling back to `walletAddress`, is non-empty |
| Dashboard.WalletsInDisplayOrder | frontend/src/components/Dashboard.jsx:53-55 | the bot's wallets are listed in display order, each once |
| Dashboard.ChainsInDisplayOrder | frontend/src/components/Dashboard.jsx:8-15 | the display list is strictly ordered |
| Dashboard.FetchAddress | frontend/src/components/Dashboard.jsx:123-133 | the trimmed address is loaded exactly when it is set, long enough for its chain, and for BNB starts with `0x`; a loaded chain is one of the bot's wallets |
| Dashboard.FindIndex | frontend/src/components/Dashboard.jsx:94 | -1 exactly when the key is absent, else the first index holding it |
| Dashboard.LoopStep | frontend/src/components/Dashboard.jsx:91-97 | with more than one wallet the next key is a listed one, the first when the current key is not listed; otherwise the key stays |
| Dashboard.LoopStepNext | frontend/src/components/Dashboard.jsx:94-96 | from entry i the loop moves to entry i + 1, wrapping to the first after the last |
| Dashboard.LoopVisitsInOrder | frontend/src/components/Dashboard.jsx:91-97 | started on the first wallet, the n-th tick shows the n-th wallet |
| Dashboard.LoopReturns | frontend/src/components/Dashboard.jsx:91-97 | after a full round the summary card is back on the first wallet |
| Dashboard.SummaryChain | frontend/src/components/Dashboard.jsx:56 | no summary chain exactly when the bot has no wallet; otherwise a listed one, the loop key when it is listed |
| Dashboard.Insert | frontend/src/components/Dashboard.jsx:602-606 | inserting into a newest-first list keeps it newest first and adds exactly that row |
| Dashboard.NewestFirstHead | frontend/src/components/Dashboard.jsx:602-606 | the head of a newest-first list is at least as new as every row |
| Dashboard.NewestFirstTail | frontend/src/components/Dashboard.jsx:602-606 | the tail of a newest-first list is newest first |
| Dashboard.ConsNewestFirst | frontend/src/components/Dashboard.jsx:602-606 | a row at least as new as every row may go in front |
| Dashboard.SortByAge | frontend/src/components/Dashboard.jsx:602-606 | the sorted copy is newest first, rows without a date counting as time 0, and a permutation of the input |
| Dashboard.SortKeepsMembers | frontend/src/components/Dashboard.jsx:602-606 | sorting neither adds nor drops a row |
| Dashboard.FilterStart | frontend/src/components/Dashboard.jsx:543-585 | today, week (seven days before today), month and year start at the given IST instants; every other filter has no start |
| Dashboard.Since | frontend/src/components/Dashboard.jsx:586-589 | a row is kept exactly when its date parses and is not before the start |
| Dashboard.SinceKeepsOrder | frontend/src/components/Dashboard.jsx:586-589 | filtering keeps newest-first order |
| Dashboard.FilterByDateRange | frontend/src/components/Dashboard.jsx:572-590 | `all` and unknown filters return the rows unchanged; the others keep exactly the rows dated from the start on |
| Dashboard.FilterKeepsOrder | frontend/src/components/Dashboard.jsx:572-590 | date filtering a newest-first list leaves it newest first |
| Dashboard.TotalPages | frontend/src/components/Dashboard.jsx:608 | at least one page, enough pages of ten for every row, and no empty trailing page |
| Dashboard.SafePage | frontend/src/components/Dashboard.jsx:609 | the page shown is always in range and is the page state when that is in range |
| Dashboard.Prev | frontend/src/components/Dashboard.jsx:683 | one page back, never below the first |
| Dashboard.Next | frontend/src/components/Dashboard.jsx:692 | one page on, never past the last |
| Dashboard.PagingStaysInRange | frontend/src/components/Dashboard.jsx:683-693 | the Prev and Next buttons keep an in-range page in range, so it is shown as is |
| Dashboard.PageRows | frontend/src/components/Dashboard.jsx:610 | at most ten rows, at least one when there are rows, the slice starting at the shown page |
| Dashboard.ShownPageStart | frontend/src/components/Dashboard.jsx:608-610 | a shown page starts within the rows, strictly inside when there are any |
| Dashboard.RowOnPage | frontend/src/components/Dashboard.jsx:608-610 | every row appears on a page: row i is entry i mod 10 of page i div 10 |
| Dashboard.TableView | frontend/src/components/Dashboard.jsx:602-610 | the table's rows are newest first, taken from the input; an `all` filter keeps every row, the others exactly those dated from the start on; the page is in range and holds at most ten filtered rows |
| Dashboard.Elapsed | frontend/src/components/Dashboard.jsx:527-539 | under a second is "just now"; otherwise the largest unit (year of 365 days, day, hour, minute, second) of which one whole has passed, with its whole count |
| Dashboard.AgoText | frontend/src/components/Dashboard.jsx:534-539 | the text is "just now" exactly for `JustNow` |
| Dashboard.AgeToAgo | frontend/src/components/Dashboard.jsx:523-540 | an age that does not parse is shown raw, a dash when empty; a date less than a second old (or in the future) is "just now" |
| ReferSol.AccountIndex | refer/sol.js:91-95 | -1 exactly when no account key is the wallet, else the first key that is |
| ReferSol.OtherParty | refer/sol.js:107-113 | "Unknown" with at most one key; otherwise the first key that is not the wallet, when there is one |
| ReferSol.FirstOther | refer/sol.js:109-112 | the first key other than the wallet, "Unknown" when every key is the wallet |
| ReferSol.NoticeOf | refer/sol.js:79-128 | no notice without a parsed transaction with meta, when the wallet is not a key, or when its balance did not change; otherwise the size and direction of the change at the wallet's key, the other party, and the failed flag of the listing entry |
| ReferSol.Colour | refer/sol.js:138 | grey exactly for a failed transaction; otherwise green exactly for incoming, red exactly for outgoing |
| ReferSol.Ids | refer/sol.js:55-56 | the signatures of a listing or of the notices, in order |
| ReferSol.ScanStep | refer/sol.js:62-67 | one pass of the later-check loop is one more signature of the scan |
| ReferSol.ScanSeen | refer/sol.js:62-67 | the loop only adds: the old set stays in front, exactly the listed signatures are added, and no signature is held twice |
| ReferSol.ScanNotices | refer/sol.js:62-67 | every notice is for a signature that was not seen before and is marked now, and none is reported twice |
| ReferSol.VisitKeepsNotices | refer/sol.js:62-67 | one more pass of the loop keeps every notice for a newly marked signature and each signature reported once |
| ReferSol.AppendNotice | refer/sol.js:65-66 | a notice for a signature that no earlier notice has keeps the notice signatures distinct |
| ReferSol.CheckReportsEveryUnseen | refer/sol.js:62-67 | a later check reports every listed signature that was not in the set and whose transaction changes the wallet's balance |
| ReferSol.ScanReportsUnseen | refer/sol.js:62-67 | the loop reports every listed signature not seen before whose transaction yields a notice, even when the listing repeats it |
| ReferSol.CheckReportsOnlyUnseen | refer/sol.js:44-77 | a check reports only signatures not seen before it, each once; the first check reports nothing; after a later check at most 1000 signatures are kept |
| ReferSol.SolanaMonitor.constructor | refer/sol.js:8-22 | a monitor starts with no signatures seen and no listener |
| ReferSol.SolanaMonitor.Start | refer/sol.js:24-42 | registers the listener, then runs the seeding check |
| ReferSol.SolanaMonitor.CheckRecentTransactions | refer/sol.js:44-77 | a failed listing changes nothing; the first check marks every listed signature silently; a later check skips the seen ones, marks and processes the rest, and keeps the newest 1000 |
| ReferSol.SolanaMonitor.Seed | refer/sol.js:53-58 | the seeding loop marks exactly the listed signatures, once each |
| ReferSol.SolanaMonitor.ScanListing | refer/sol.js:62-67 | the later-check loop computes the scan of the listing |
| ReferSol.SolanaMonitor.Stop | refer/sol.js:203-208 | the listener removed is the one registered, when there is one |
| ReferTron.Network | refer/tron.js:69-74 | Shasta when the URL mentions shasta, else Nile when it mentions nile, else Mainnet |
| ReferTron.Fetched | refer/tron.js:269-292 | without lookup data, the fallback label, 6 decimals and "Unknown Token"; otherwise each present field is kept and each missing one defaulted, so decimals are never 0 |
| ReferTron.TokenMetadata | refer/tron.js:246-293 | a cached entry wins, then a known token, then the lookup; the answer is cached under the contract address and no other cached entry changes |
| ReferTron.Slice | refer/tron.js:207-208 | `s.slice(a, b)` is the characters of `s` from `a` to `b`, both cut at the end of `s`; exactly `b - a` of them when `s` reaches `b` |
| ReferTron.ProcessTx | refer/tron.js:163-244 | a notice carries the transaction's id, time and failed status; a TRX notice comes from a transfer whose sender or receiver is the wallet, and every such transfer gives one, incoming exactly when the receiver is, with the other party and the amount in sun; a TRC-20 notice comes from a `transfer` call (selector a9059cbb) to or from the wallet, and every such call gives one, carrying the token address, the amount word (characters 72 to 136 of the call data), the direction, the other party and the metadata `getTokenMetadata` returns; no contract or another contract type gives none; only a TRC-20 notice touches the token cache, and then only by adding |
| ReferTron.ScanStep | refer/tron.js:125-135 | one pass of the loop is one more transaction of the scan |
| ReferTron.ScanFacts | refer/tron.js:125-135 | the loop marks ids without duplicates and forgets none, keeps every cached token, and reports only transactions not processed before and no older than the last check less 30 seconds |
| ReferTron.LastChecked | refer/tron.js:138-143 | the new timestamp is the largest of the old one and every listed block time |
| ReferTron.Caught | refer/tron.js:151-160 | an HTTP 429 slows the poll to 5 seconds; every other failure changes nothing |
| ReferTron.CheckReportsEveryRecent | refer/tron.js:125-135 | a check reports every listed transaction not processed before, no older than the timestamp minus 30 seconds and concerning the wallet, when its id names only that transaction in the listing |
| ReferTron.ScanReportsRecent | refer/tron.js:125-135 | the loop reports every such transaction it meets, against whatever token cache the earlier transactions left |
| ReferTron.ScanMarksListed | refer/tron.js:125-135 | the loop marks only ids of the listing |
| ReferTron.NoticeIgnoresCache | refer/tron.js:163-244 | whether a transaction yields a notice does not depend on the token cache |
| ReferTron.CheckFacts | refer/tron.js:94-161 | across a check the timestamp never decreases, the set has no duplicates and after the loop at most 1000 entries, cached tokens stay, and every notice is for a new transaction inside the buffer |
| ReferTron.CheckKeepsNoDup | refer/tron.js:125-149 | a check never marks an id twice |
| Polling.NextPoll | refer/tron.js:88-89 | the delay is never negative, never more than the interval, and the interval less the time the check took while that is positive |
| ReferTron.TronMonitor.constructor | refer/tron.js:9-36 | a monitor starts with nothing processed, the clock as its timestamp, a 2-second interval, no balance, an empty cache, and not running |
| ReferTron.TronMonitor.GetTokenMetadata | refer/tron.js:246-293 | returns and caches the metadata `TokenMetadata` describes, touching no other field |
| ReferTron.TronMonitor.ProcessTransaction | refer/tron.js:163-244 | the notice and cache `ProcessTx` describes, touching no other field |
| ReferTron.TronMonitor.ScanTransactions | refer/tron.js:125-135 | the loop computes the scan of the listing from the current set and cache |
| ReferTron.TronMonitor.Newest | refer/tron.js:139-142 | the loop computes the newest timestamp |
| ReferTron.TronMonitor.CheckTransactions | refer/tron.js:94-161 | the new fields and notices are exactly those `Checked` describes |
| ReferTron.TronMonitor.PollTransactions | refer/tron.js:76-92 | a stopped monitor neither checks nor reschedules; a running one checks and schedules the next poll `NextPoll` later |
| ReferTron.TronMonitor.Start | refer/tron.js:38-67 | an invalid address changes nothing; otherwise the initial balance when it can be read, a first check, and the monitor running |
| ReferTron.TronMonitor.Stop | refer/tron.js:375-378 | stops the monitor and changes nothing else |
| ReferUtxo.Matches | refer/btc.js:61-62 | an address matches exactly when one of the prefixes is followed by a body of 25 to 62 allowed characters |
| ReferUtxo.IsValidAddress | refer/btc.js:59-66 | valid exactly when some mainnet or testnet prefix of the coin (for Litecoin those of refer/ltc.js:55-61) matches |
| ReferUtxo.ValidAddressShape | refer/btc.js:61-63 | a valid address is 26 to 67 characters long and allowed from its sixth character on |
| ReferUtxo.EndpointOf | refer/btc.js:20-35 | Bitcoin: mainnet, testnet4, else Testnet3 with an unset setting read as testnet; Litecoin (refer/ltc.js:20-31): mainnet, else testnet |
| ReferUtxo.NoticeOf | refer/btc.js:180-224 | no notice exactly when the wallet receives as much as it spends; otherwise incoming exactly when it receives more, with the net change as the amount, and the transaction's id and confirmation |
| ReferUtxo.Colour | refer/btc.js:234 | blue exactly while pending; once confirmed, green exactly for incoming, red exactly for outgoing |
| ReferUtxo.Unlisted | refer/btc.js:125 | the transactions whose id the previous poll did not list, in order |
| ReferUtxo.TxIds | refer/btc.js:122 | exactly the ids of the listed transactions |
| ReferUtxo.ScanStep | refer/btc.js:130-136 | one pass of the loop is one more transaction of the scan |
| ReferUtxo.ScanFacts | refer/btc.js:130-136 | the loop never forgets an id, marks none twice, and reports only listed transactions not processed before |
| ReferUtxo.CheckReportsEveryNew | refer/btc.js:112-137 | a check reports the notice of every listed transaction in neither the previous snapshot nor the processed set whose net change is not zero, when its id names only that transaction in the listing |
| ReferUtxo.ScanReportsNew | refer/btc.js:130-137 | the loop reports every transaction it meets whose id was not processed before and whose net change is not zero |
| ReferUtxo.ScanMarksListed | refer/btc.js:130-137 | the loop marks only ids it has met |
| ReferUtxo.CheckFacts | refer/btc.js:90-155 | with nothing listed nothing changes; otherwise the snapshot becomes exactly the listed ids, at most 1000 ids are kept without duplicates, and every notice is for a listed transaction in neither the previous snapshot nor the processed set |
| ReferUtxo.UtxoMonitor.constructor | refer/btc.js:8-18 | a monitor starts with nothing processed, an empty snapshot, not running, the endpoint of its network setting and a 10-second interval |
| ReferUtxo.UtxoMonitor.AnalyzeAndNotify | refer/btc.js:180-224 | the summing loops and the net change give exactly `NoticeOf` |
| ReferUtxo.UtxoMonitor.ScanNew | refer/btc.js:130-136 | the loop computes the scan of the new transactions |
| ReferUtxo.UtxoMonitor.CheckRecentTransactions | refer/btc.js:90-155 | the new fields and notices are exactly those `Checked` describes |
| ReferUtxo.CheckKeepsNoDup | refer/btc.js:130-146 | a check keeps the processed set free of repeats |
| ReferUtxo.UtxoMonitor.PollTransactions | refer/btc.js:72-88 | a stopped monitor neither checks nor reschedules; a running one checks and waits the interval less the time the check took, never a negative delay |
| ReferUtxo.UtxoMonitor.Start | refer/btc.js:37-57 | an invalid address changes nothing; otherwise the monitor runs and makes a first check |
| ReferUtxo.UtxoMonitor.Stop | refer/btc.js:302-305 | stops the monitor and changes nothing else |

## Left out

- Network, database, Discord and clock access: every RPC, HTTP, MongoDB and webhook call is a parameter of the member that uses its answer, so retries, timeouts and latency are not modelled.
- Timers and concurrency: `setInterval`/`setTimeout` loops, the debounce timer's firing, and requests running at the same time are not modelled. A server tick, a poll and a timer firing are each one method call, and concurrent writers to the transaction collection appear only as the `racing` rows a save may meet.
- Floating point: amounts are integer base units (wei, lamports, sun, satoshi) or exact decimal strings. The divisions by `1e8`, `1e9` and `LAMPORTS_PER_SOL`, `toFixed`, and the USD values computed from prices are not modelled. PriceService keeps prices as `real`.
- `amountUsd` and `txnFee` of the stored record are not modelled.
- Embed text: the emoji description templates, explorer URLs, time formatting (`toLocaleString` in IST) and the posts' target URL are not modelled. DiscordService models which builder a record goes to, the fields that decide its colour, direction and amount, and the batching.
- DiscordService.BuildEmbed: the amount shown for EVM records is not constrained, because it comes from a formatter this model leaves out.
- `sendTransactionAlert` in backend/services/discordService.js is not modelled, because no caller in the core uses it. The batch sender is modelled.
- `processTransaction` in refer/btc.js is not modelled, because nothing in that file calls it.
- `getWalletWithTransactions` and `getAllWallets` in backend/services/walletService.js are not modelled. They are database reads that pick the balance fields by wallet type and sort by time, with no logic the engine's guarantees rest on.
- Dates: `parseAgeDate` and the IST start-of-day, month and year are parameters of Dashboard (the parsed time, and `Starts`). The block time to age text conversion is the parameter `ageOf` of the adapters.
- Strings: `trim` strips the ASCII white space plus U+00A0 and U+FEFF, not every Unicode space separator. Case mapping covers ASCII letters only.
- Hex.Parse: `parseInt(s, 16)` is exact in the model. JavaScript loses precision above 2^53, so very large TRC-20 amounts differ in the low digits.
- TronService: TronWeb's base58check codec (`fromHex`) is a parameter.
- TronService: the `|| value.data.slice(32, 72)` fallback after the recipient strip is not modelled, because `'41' + …` is never empty and the fallback cannot be reached.
- TronService: a block timestamp is a natural number or absent. A timestamp that is present but not a number is not modelled.
- TronService: `KNOWN_TRC20` is a map, which is all the lookup by contract address needs.
- TronService.FetchAndParse: normalises with the corrected decoder (`NormalizeTx`), so it records incoming TRC-20 transfers to a wallet whose hex after `41` starts with `0`, which backend/services/tronService.js:121 drops or stores as OUT. The as-written behaviour of each record is `NormalizeTxAsWritten`; the fetch does not route it.
- SolService: the balance arrays are taken to be aligned with the account keys, one pre and one post balance per key, as the RPC returns them.
- SolService: balances are compared as integer lamports, where the source compares floats after dividing by `1e9`.
- SubscriptionManager.Subscriptions.Start: the check that `startSolanaSubscription` runs right after setting up a listener is the separate call `Reconcile`, with its own RPC answers.
- SeenSet: a JavaScript `Set` shared by reference is a value in the model, so aliasing between holders of the same set is not modelled.
- WalletService: the transaction collection's unique index on (hash, wallet, token) is a map keyed by that triple. The only write errors of the unordered `insertMany` that the model has are duplicate keys (from `racing` writers or a repeat within the batch). Any other database error is not modelled.
- BotRoutes.Routes.Create and BotRoutes.Routes.Patch: the wallet refreshes a create or edit starts are returned as a list of requests (`WalletRefreshes`) rather than performed; whether the Ethereum refresh, the only one not caught, throws is the parameter `ethereumOk`, and other database failures are not modelled.
- WalletService.Storage.RefreshAll: the addresses are the caller's list, standing for the result of `Wallet.find()` in database order; the read of the wallet collection itself is not modelled.
- Dashboard.SortByAge: the order it gives rows of equal time is not stated; the built-in sort keeps their input order.
- Server.Setting: a negative interval setting is passed through unchanged, as `parseInt` does. What a negative delay does to `setInterval` is not modelled.
- LtcService: Litecoin records have no status field. The model states this as the Bitcoin record with the status removed (`RecordsWithoutStatus`).

## Findings

| source | as written | input that shows it | evidently intended | confidence | as-written member | corrected member |
|---|---|---|---|---|---|---|
| backend/services/tronService.js:121 | the TRC-20 recipient is `'41' + data.slice(32, 72).replace(/^0+/, '')`. The slice is already the 40 hex digits of the 20-byte address, without the ABI padding, so the strip removes zero digits of the address itself | a `transfer` call to the monitored wallet whose address digits after `41` start with `0` (one address in sixteen): the stripped hex names another address or none, and the transfer is stored as OUT, or not at all | keep all 40 digits, `'41' + data.slice(32, 72)`, as refer/tron.js:207 does | high; not executed | TronService.AsWrittenMissesLeadingZero | TronService.DecodesIncomingTransfer |
| backend/routes/botRoutes.js:148-159 | stop takes the bot out of the registry but never calls `stopSolanaSubscription`. Run (134-146) always acquires, and delete (120-132) always releases | run, stop, run, then delete one bot with a Solana address: no bot is left, yet the address is still counted once and its listener stays open | a bot holds one count while it runs: stop releases it, and run, edit and delete acquire or release only when the running state changes | medium; not executed | BotRoutes.RunStopRunDeleteLeaks | BotRoutes.StopFixedBalanced |

The Tron normaliser used by the rest of the model (`TronService.NormalizeTx`, and through it the wallet fetch) is the corrected one. The `BotRoutes.Routes` class follows the routes as written. The corrected lifecycle is `BotRoutes.RunFixed`, `StopFixed`, `DeleteFixed` and `PatchFixed`, each proved to keep the Solana count equal to the number of running bots that watch each address (`RunFixedBalanced`, `StopFixedBalanced`, `DeleteFixedBalanced`, `PatchFixedBalanced`).

## Notes on the code

- backend/services/priceService.js:26-30: the request passes `validateStatus: (s) => s === 200`, so any other status throws and is served from the cache (or zeros) by the `catch`. The `res.status !== 200` test can only see a 200, and returns zeros only for an empty body. The model follows the code.
- backend/services/btcService.js and backend/services/ltcService.js have no seeding first check. Every fetch returns all listed records, and the store's dedup alone decides what is new. Only the Solana subscription seeds its seen-set silently on its first reconciliation.
