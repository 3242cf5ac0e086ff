# Ooman gallery and mint tools, modelled in Dafny

This project models the logic of the Ooman NFT gallery and its tools:

- **The wallet library** (`js/libs/dappkit.js`):
  - the helpers: chain-id normalisation, network lookup, explorer links, shortened addresses and hashes;
  - the `Notification` centre, which shows toasts and tracks transactions;
  - the `ConnectWallet` connection manager: the persisted session, EIP-6963 provider discovery, connect, switch, disconnect, restore, the provider event handlers and name-resolution ordering.
- **The two gallery front ends.**
  - `js/main.js` loads one metadata file.
  - `js/app.js` loads numbered chunk files, the later ones through a background worker.
  - Both provide the filter engine (match, add, remove, apply), the trait/value counting table and its pruning, the panel order of trait types, the colourised titles, the count line and the chunked rendering plan.
- **The two loader workers.**
  - `js/workers/metadata.worker.js` re-batches parsed items.
  - `js/workers/metadata_worker.js` normalises proof records and batches them file by file.
- **The mint command line** (`contract/mint.js`): locating a token's proofs file, the mint data report with its gas estimate, and argument dispatch.

## Layout

Each file holds one module.

| File | Module | Contents |
|---|---|---|
| `common.dfy` | `Common` | `Option`/`Result`, reading and writing numbers in a base, `Flatten`, prefixes and suffixes, ASCII lower-casing |
| `chains.dfy` | `Chains` | the wallet library's network table and pure helpers |
| `notifications.dfy` | `Notifications` | the notification centre as a class over two maps and a counter |
| `wallet.dfy` | `Wallet` | the session store, the provider registry, name resolution, and the class `ConnectWallet` |
| `traits.dfy` | `Traits` | items, attributes, filters; matching and selection |
| `trait_counts.dfy` | `TraitCounts` | the trait → value → count table, built by loops; pruning of redundant traits |
| `trait_order.dfy` | `TraitOrder` | the panel order of trait types, as a stable insertion sort by rank |
| `render.dfy` | `Render` | colourised text, the count line, the chunked rendering plan |
| `gallery_main.dfy` | `GalleryMain` | the single-file gallery's state as a class |
| `gallery_app.dfy` | `GalleryApp` | the chunked gallery's state as a class; its chunk files and worker request |
| `worker_protocol.dfy` | `WorkerProtocol` | worker messages and what a run delivered |
| `item_worker.dfy` | `ItemWorker` | `metadata.worker.js` |
| `metadata_worker.dfy` | `MetadataWorker` | `metadata_worker.js` |
| `mint.dfy` | `Mint` | `contract/mint.js` |

## How the model handles I/O

The answers of the outside world are parameters:

- `RpcResult` answers of a wallet's `request`;
- a `fetch` function from file name to an optional item list;
- `FileLoad` outcomes for the worker files;
- a map from file name to proofs table for the mint tool;
- `parse` and `serialize` for `JSON.parse` and `JSON.stringify`.

The key-value `localStorage` is a `map<string, string>`.

Delayed work (a fade followed by removal after a timeout) is a second explicit method, `FinishHide` or `CompleteRemoval`.

The workers are methods that return the sequence of messages they post. What a run delivered is characterised by these specification functions:

- `Batches`: the payloads of the batch messages;
- `ErrorFiles`: the files named by error messages;
- `Delivered`: the items of the files that loaded;
- `FailedFiles`: the names of the files that failed.

`dappkit.js` has no connection-state verification, no retry, and no de-duplication of concurrent connects, and neither does the model.

## Model

| member | source | states |
|---|---|---|
| Common.ParseBaseAccepts | js/libs/dappkit.js:67-72 | reading a string as a number in a base succeeds exactly when the string is non-empty and every character is a digit of that base |
| Common.ParseToBase | js/libs/dappkit.js:67-72 | reading back the base-`b` rendering of `n` gives `n` (2 ≤ b ≤ 16) |
| Common.NatToString | contract/mint.js:32 | a decimal rendering starts with a digit and reads back as the number it renders |
| Common.NatToStringInjective | js/app.js:44-47 | two numbers with the same decimal rendering are equal |
| Common.IntToStringInjective | contract/mint.js:32 | the rendering of an integer starts with "-" exactly when it is negative, and two integers with the same rendering are equal |
| Common.Take | contract/mint.js:50 | `substring(0, k)` is a prefix of length min(k, \|s\|) |
| Common.TakeLast | js/libs/dappkit.js:74-77 | `substring(length - k)` is a suffix of length min(k, \|s\|) |
| Common.LowerChar | js/main.js:219-227 | no result is an upper-case ASCII letter; every other character is unchanged |
| Common.Lower | js/main.js:219-227 | `toLowerCase` keeps the length and lowers position by position |
| Chains.NormalizeChainId | js/libs/dappkit.js:67-72 | a number is kept; a "0x" string is read in base 16 after the prefix; any other string is read in base 10; `None` stands for NaN |
| Chains.NormalizeHexRoundTrip | js/libs/dappkit.js:67-70 | "0x" followed by the hex digits of `n` normalises to `n` |
| Chains.NormalizeDecimalRoundTrip | js/libs/dappkit.js:71 | the decimal rendering of `n` normalises to `n` |
| Chains.GetNetworkByChainId | js/libs/dappkit.js:94-99 | the result is the first entry matching by numeric id or by hex string; there is no result exactly when no entry matches |
| Chains.VisibleNetworks | js/libs/dappkit.js:90-92 | an entry is listed exactly when it is in the table and shown in the interface |
| Chains.AllowedChainsSpec | js/libs/dappkit.js:536-541 | an id is allowed exactly when some entry shown in the interface has that chain id |
| Chains.LastIndex | js/libs/dappkit.js:535-539 | the last entry with a chain id: it has that id and no later entry does; -1 exactly when no entry has it |
| Chains.ChainNames | js/libs/dappkit.js:535-539 | an id is a key exactly when some entry has it, and the name stored is that of the last such entry, since later entries overwrite earlier ones |
| Chains.ChainNamesKeys | js/libs/dappkit.js:535-539 | the keys of the index are exactly the chain ids of the entries |
| Chains.ExplorerUrl | js/libs/dappkit.js:419-426 | the first entry with the chain id decides: its explorer URL followed by the hash when that URL is non-empty, the Etherscan base followed by the hash otherwise, and also when no entry has the id |
| Chains.Shorten | js/libs/dappkit.js:74-82 | empty input gives ""; otherwise the result is a prefix of at most `start` characters, "...", and a suffix of at most `end` characters |
| Chains.ShortenAddress | js/libs/dappkit.js:74-77 | for an address of 9 or more characters: 12 characters, the first 5, "...", and the last 4 |
| Chains.ShortenHash | js/libs/dappkit.js:79-82 | for a hash of 10 or more characters: 13 characters, the first 6, "...", and the last 4 |
| Chains.RegistryConsistent | js/libs/dappkit.js:51-61 | every entry's hex chain id normalises to its numeric chain id |
| Notifications.Decide | js/libs/dappkit.js:428-459 | a settled wait is a success exactly for a receipt with status 1; the decision is never "pending" |
| Notifications.NewEntry | js/libs/dappkit.js:365-381 | a new entry is pending, not fading, and links to the explorer URL of its hash and chain |
| Notifications.Settled | js/libs/dappkit.js:432-458 | The first status written is the decision, with `onSuccess` or `onError`. A throwing `onSuccess` (or `onError` after a failed receipt) leads to the `catch`, which writes "failed" and calls `onError` again. The last status is "success" exactly for status 1 with an `onSuccess` that does not throw. Removal is scheduled only with auto-remove, and not when `onError` throws in the `catch` |
| Notifications.Tracked | js/libs/dappkit.js:365-381 | a known hash leaves the map unchanged; otherwise the hash is added with a new pending entry for the transaction, and every other entry is kept as it was |
| Notifications.TrackIdempotent | js/libs/dappkit.js:365-366 | tracking the same hash twice equals tracking it once, and a newly tracked transaction is pending |
| Notifications.NotificationCenter.constructor | js/libs/dappkit.js:275-280 | no notifications, no transactions, counter 0 |
| Notifications.NotificationCenter.Show | js/libs/dappkit.js:296-324 | the id is the incremented counter and is fresh; the notice is stored under it; a hide is scheduled exactly when the duration is positive |
| Notifications.NotificationCenter.Hide | js/libs/dappkit.js:488-500 | an existing notice is marked fading and nothing else changes; an unknown id changes nothing |
| Notifications.NotificationCenter.FinishHide | js/libs/dappkit.js:495-499 | after the delay, the notice is deleted |
| Notifications.NotificationCenter.Track | js/libs/dappkit.js:352-387 | Returns the hash. A known hash changes nothing and starts no watch. A new hash gets its pending entry and a watch that calls `onPending` at once. The watch then waits, recorded among the running watches, unless `onPending` throws: then the entry fails at once, `onError` is called, and the removal is scheduled as in the `catch` |
| Notifications.NotificationCenter.UpdateTransactionStatus | js/libs/dappkit.js:461-474 | only the status of an existing entry changes; an unknown id changes nothing |
| Notifications.NotificationCenter.Settle | js/libs/dappkit.js:428-459 | a running watch settles once and is no longer running afterwards; an entry deleted before settling is left alone; otherwise the entry ends with the last status `Settled` writes, the callbacks are those of `Settled`, and so is the removal |
| Notifications.NotificationCenter.RemoveTransaction | js/libs/dappkit.js:476-486 | an existing entry is marked fading; an unknown id changes nothing |
| Notifications.NotificationCenter.CompleteRemoval | js/libs/dappkit.js:481-485 | after the delay, the entry is deleted |
| Notifications.NotificationCenter.ClearTransactions | js/libs/dappkit.js:509-511 | every tracked entry is marked fading, and the set of keys is unchanged |
| Wallet.NetworkStatus | js/libs/dappkit.js:820-828 | the chain-id key is stored exactly when the id names a visible network of the table; all other keys are untouched |
| Wallet.ConnectedSession | js/libs/dappkit.js:640-646 | updating the network status after connecting keeps the last-wallet and connected keys |
| Wallet.ClearSession | js/libs/dappkit.js:845-849 | the three session keys are removed and every other key is kept |
| Wallet.DefaultChainVisible | js/libs/dappkit.js:51-61 | the Ethereum id "0x1" names a visible network |
| Wallet.FindProvider | js/libs/dappkit.js:631 | the result is the first provider with that name; there is none exactly when no provider has the name |
| Wallet.Register | js/libs/dappkit.js:613-615 | an announcement with a new name is appended and one with a known name is ignored; names stay unique |
| Wallet.RegisterAllFirstWins | js/libs/dappkit.js:609-621 | after any sequence of announcements, names are unique and lookup by name finds the first announced provider with that name |
| Wallet.ResolveName | js/libs/dappkit.js:740-799 | the preferred resolver is asked first and the other only when the first has no name; a name from both sources comes from the preferred one; only ENS supplies an avatar |
| Wallet.ConfigByKey | js/libs/dappkit.js:861 | the entry found is in the table under that key; there is none only when no entry has the key |
| Wallet.Precompute | js/libs/dappkit.js:534-541 | the constructor's loop builds exactly the id → name index and the list of visible ids |
| Wallet.ConnectWallet.constructor | js/libs/dappkit.js:524-544 | configuration and storage as given, no providers, no current provider, resolution order defaulting to "wns-first" |
| Wallet.ConnectWallet.IsConnected | js/libs/dappkit.js:968-970 | true exactly when the connected key holds "true" |
| Wallet.ConnectWallet.CurrentChainId | js/libs/dappkit.js:972-974 | the stored chain id, if any |
| Wallet.ConnectWallet.LastWallet | js/libs/dappkit.js:976-978 | the stored wallet name, if any |
| Wallet.ConnectWallet.IsAllowed | js/libs/dappkit.js:573-575 | true exactly when some visible entry's id equals the normalised input |
| Wallet.ConnectWallet.GetConnectedProvider | js/libs/dappkit.js:980-984 | some provider exactly when a provider is registered under the stored wallet name; it is that provider |
| Wallet.ConnectWallet.GetAccount | js/libs/dappkit.js:986-997 | the first account when there is a connected provider and it answers with a non-empty first account; otherwise none |
| Wallet.ConnectWallet.GetChainId | js/libs/dappkit.js:999-1010 | none without a provider or on rejection; otherwise the normalised answer |
| Wallet.ConnectWallet.HandleProviderAnnounce | js/libs/dappkit.js:609-621 | the provider list becomes `Register`; a reconnect happens exactly for a new provider named as the last wallet of a connected session |
| Wallet.ConnectWallet.SetupProviderEvents | js/libs/dappkit.js:664-669 | listeners are rebound exactly when the provider differs from the current one, which it then becomes |
| Wallet.ConnectWallet.UpdateNetworkStatus | js/libs/dappkit.js:820-828 | the store becomes `NetworkStatus` of the old store |
| Wallet.ConnectWallet.ConnectTo | js/libs/dappkit.js:630-662 | An unknown name does nothing. A rejected request changes nothing. Success: the three session keys are written, then the network status is updated; the provider becomes current; the session is connected under that name. The returned accounts and chain id are the wallet's answers |
| Wallet.ConnectWallet.RecordConnection | js/libs/dappkit.js:640-646 | the session keys and network status as written on connect; the provider becomes current |
| Wallet.ConnectWallet.SwitchNetwork | js/libs/dappkit.js:801-818 | nothing without a provider or on rejection; on success the chain id is stored and the network status updated |
| Wallet.ConnectWallet.Disconnect | js/libs/dappkit.js:830-863 | Revocation is requested exactly when a provider was connected. The session is cleared and there is no current provider. The network status is reset to the "ethereum" entry's hex id, or the call throws when the configuration has no such entry. With the default table the store ends holding only chain id "0x1" among the session keys |
| Wallet.ConnectWallet.RestoreState | js/libs/dappkit.js:950-966 | the stored chain id, or Ethereum's when there is none, sets the network status; events are rebound for the provider of a connected session |
| Wallet.ConnectWallet.OnChainChanged | js/libs/dappkit.js:676-691 | the store becomes `NetworkStatus`; the reported id, hex id, name (or "Unknown (…)") and allowed flag are those the handler computes |
| Wallet.ConnectWallet.OnAccountsChanged | js/libs/dappkit.js:671-675 | Any non-empty list leaves the store and the provider unchanged. An empty list disconnects: revocation is requested exactly when a provider was connected, the session is cleared, and there is no current provider. The network status is reset to the "ethereum" entry's hex id, or the handler throws when there is no such entry |
| Wallet.ConnectWallet.SetNameResolutionOrder | js/libs/dappkit.js:1033-1051 | only "wns-first" and "ens-first" are accepted; names are re-resolved exactly when accepted while connected |
| Traits.TraitValues | js/main.js:172-177 | the values listed for a trait are exactly those of the item's attributes with that trait |
| Traits.MatchFormsAgree | js/app.js:182-186 | the main.js match (filter by trait, then some value) and the app.js match (some attribute equal to the pair) agree |
| Traits.Select | js/app.js:188-189 | the selection is no longer than the input and holds exactly the items that match every filter |
| Traits.SelectAppend | js/app.js:217-221 | selecting from a concatenation is concatenating the selections |
| Traits.SelectNoFilters | js/main.js:170-171 | with no filters every item is selected, in order |
| Traits.ApplyFilters | js/main.js:169-184 | no filters gives all items; otherwise exactly the items matching every filter, in order |
| Traits.AddFilter | js/main.js:127-136 | an active pair is not added again; a new pair is appended; the list stays free of duplicates |
| Traits.RemoveFilter | js/main.js:138-144 | exactly the other filters remain, each as often as before, and the pair not at all |
| Traits.RemoveFilterAppend | js/main.js:138-144 | removal from a concatenation is the concatenation of the removals, so the remaining filters keep their order |
| Traits.RemoveFilterProps | js/main.js:138-144 | removal keeps the list free of duplicates, and removing an absent pair changes nothing |
| Traits.AddThenRemove | js/main.js:127-144 | adding and then removing a pair leaves the other filters as they were, without the pair and without duplicates |
| TraitCounts.AllAttributes | js/main.js:203-204 | an attribute is listed exactly when some item carries it |
| TraitCounts.AllAttributesAppend | js/main.js:203-204 | the attributes of a concatenation of item lists are those of each list, in order |
| TraitCounts.TraitKeys | js/app.js:264 | every trait type of the attributes once, and nothing else |
| TraitCounts.FirstMet | js/app.js:250-252 | the position of the first attribute of a trait type, which is where the counting loop creates its row; the length when there is none |
| TraitCounts.TraitKeysOrder | js/app.js:250-264 | the keys come in the order in which the counting loop first met their trait types |
| TraitCounts.TallyTraits | js/main.js:205-207 | a trait type has a row exactly when some attribute has that type |
| TraitCounts.TallyCounts | js/main.js:203-211 | a (type, value) cell exists exactly when that attribute occurs, and holds its number of occurrences |
| TraitCounts.CountOne | js/main.js:205-209 | one attribute bumps its cell, creating the row and the cell as needed |
| TraitCounts.CountAll | js/main.js:204-210 | counting more attributes extends the tally of those already counted |
| TraitCounts.BuildTraitValueCounts | js/main.js:200-214 | the loops build the tally of all attributes of all items |
| TraitCounts.BuildTraitValueCountsSpec | js/main.js:200-214 | a cell exists exactly when some item carries the attribute; its count is the number of occurrences, at least 1 |
| TraitCounts.Pruned | js/main.js:216-232 | without a "Type" row nothing changes; otherwise only the "Skin" and "Eyes" rows lose the values equal to a "Type" value after lower-casing, and every other cell keeps its count |
| TraitCounts.LowerKeys | js/main.js:219-221 | the lower-cased set of the "Type" values |
| TraitCounts.PruneValues | js/main.js:224-228 | the loop keeps exactly the values whose lower-cased form is not in the set |
| TraitCounts.RemoveRedundantTraits | js/main.js:216-232 | the in-place deletions produce `Pruned` of the table |
| TraitOrder.RankSpec | js/main.js:247-252 | a known trait type ranks at its index in the order list; an unknown one ranks after all of them |
| TraitOrder.OfRankAppend | js/main.js:247-253 | the types of one rank in a concatenation are those of each part, in order |
| TraitOrder.InsertPermutes | js/main.js:247-253 | insertion adds exactly the one element |
| TraitOrder.InsertSorted | js/main.js:247-253 | inserting into a rank-sorted list keeps it sorted |
| TraitOrder.InsertStable | js/main.js:247-253 | insertion places an element after the elements of equal rank |
| TraitOrder.SortByRank | js/main.js:247-253 | the result is sorted by rank and is a permutation of the input |
| TraitOrder.SortStable | js/main.js:247-253 | the sort is stable: the elements of each rank keep their input order |
| TraitOrder.SortTraitTypes | js/main.js:234-255 | a permutation in which the known types come first, in list order, and the unknown types follow in their original order |
| Render.ColorSpans | js/main.js:272-280 | one span per character: "#" becomes class 6 holding " #", the character at position i becomes class i mod 6 + 1 |
| Render.ColorSpansText | js/app.js:297-305 | the visible text of the colourised title is the title with a space before each "#" |
| Render.ResultsText | js/main.js:303-311 | "Showing all N items" when nothing is filtered out, otherwise "Showing F of N items" |
| Render.ResultsTextSaysAll | js/app.js:399-408 | the line starts with "Showing all " exactly when the counts are equal |
| Render.RenderChunks | js/main.js:348-380 | the slices concatenate to the items; each holds 1 to `size` items, all but the last exactly `size`; their number is the ceiling of \|items\|/size |
| Render.DisplayGallery | js/main.js:317-337 | no items gives the empty state; up to 100 items are drawn at once; more are drawn in slices of 100 that concatenate to the items |
| GalleryMain.MainGallery.constructor | js/main.js:18-25 | empty item lists and no filters |
| GalleryMain.MainGallery.LoadMetadata | js/main.js:44-54 | a fetched list becomes both the items and the items on show; a failed load changes nothing |
| GalleryMain.MainGallery.ApplyFilters | js/main.js:169-184 | the items on show become `ApplyFilters` of the items; the rendering plan and count line follow |
| GalleryMain.MainGallery.AddFilter | js/main.js:127-136 | the filters become `AddFilter`; the items on show are recomputed exactly when the pair is new |
| GalleryMain.MainGallery.RemoveFilter | js/main.js:138-144 | the filters become `RemoveFilter` and the items on show are recomputed |
| GalleryMain.MainGallery.PopulateAvailableFilters | js/main.js:186-198 | nothing without items; otherwise the pruned tally and its trait types in panel order, the two holding the same types |
| GalleryApp.ChunkFiles | js/app.js:44-47 | ten names, the i-th being the pattern with i+1 in place of "{i}" |
| GalleryApp.ChunkFileInjective | js/app.js:44-47 | different chunk numbers give different file names |
| GalleryApp.ChunkFilesDistinct | js/app.js:44-47 | the ten chunk files are pairwise distinct |
| GalleryApp.FulfilledAppend | js/app.js:68-71 | the items of fulfilled fetches over concatenated file lists are the concatenation |
| GalleryApp.BackgroundRequest | js/app.js:92-104 | nothing happens without files or without worker support; otherwise the worker is asked for the files in batches of 200 |
| GalleryApp.RemainingRequested | js/app.js:62-66 | after the first load, the worker is asked for exactly the other nine chunk files |
| GalleryApp.AppGallery.constructor | js/app.js:21-26 | empty item lists and no filters |
| GalleryApp.AppGallery.LoadMetadata | js/app.js:60-90 | the first file's fulfilled items become the items and the items on show; the other nine files remain; the plan is empty exactly without items |
| GalleryApp.AppGallery.OnBatch | js/app.js:106-127 | A batch is appended to the items. The batch joins the items on show only while no filter is active, and is then drawn when the total is a multiple of 400. The panel and count refresh at multiples of 400 |
| GalleryApp.AppGallery.ApplyFilters | js/app.js:217-226 | the items on show become `ApplyFilters` of the items; the rendering plan and count line follow |
| GalleryApp.AppGallery.AddFilter | js/app.js:198-208 | the filters become `AddFilter`; the items on show are recomputed exactly when the pair is new |
| GalleryApp.AppGallery.RemoveFilter | js/app.js:210-215 | the filters become `RemoveFilter` and the items on show are recomputed |
| GalleryApp.AppGallery.UpdateFilters | js/app.js:247-277 | the pruned tally of all items, with its trait types in first-met order |
| GalleryApp.BatchKeepsSelection | js/app.js:112-115 | appending a batch while unfiltered keeps "on show = all items"; under filters the selection of the longer list is the old selection followed by the matching items of the batch |
| WorkerProtocol.PostDone | js/workers/metadata_worker.js:88 | a final "done" after messages without one closes the run and delivers nothing more |
| ItemWorker.Capacity | js/workers/metadata.worker.js:2 | the batch size in effect is the requested one, or 1 when that is below 1 |
| ItemWorker.PushOne | js/workers/metadata.worker.js:15-23 | pushing one item extends what was posted plus the buffer by that item; full batches are posted and the buffer stays below capacity |
| ItemWorker.PushItems | js/workers/metadata.worker.js:14-24 | pushing a file's items extends what was posted plus the buffer by those items |
| ItemWorker.PostFull | js/workers/metadata.worker.js:17-23 | posting a full buffer keeps every posted batch full |
| ItemWorker.PostError | js/workers/metadata.worker.js:25-31 | an error message names the file and delivers nothing |
| ItemWorker.Step | js/workers/metadata.worker.js:7-31 | a file that loads adds its items; a file that fails adds its name to the errors |
| ItemWorker.Finish | js/workers/metadata.worker.js:34-38 | a non-empty buffer is posted, then "done"; every batch is non-empty and at most full, and all but the last are full |
| ItemWorker.Run | js/workers/metadata.worker.js:1-39 | With no batch size in the message, the default of 100 applies. The batches concatenate to the items of the files that loaded, in order, and the errors name the failed files in order. The run ends with one "done". Batches are full except possibly the last, which fixes each batch |
| MetadataWorker.Unescape | js/workers/metadata_worker.js:38 | unescaping never lengthens the text |
| MetadataWorker.UnescapePlain | js/workers/metadata_worker.js:38 | text without a backslash is unchanged |
| MetadataWorker.UnescapeEscape | js/workers/metadata_worker.js:31-38 | unescaping inverts JSON string escaping of backslashes and quotes |
| MetadataWorker.NormalizeArrayRecord | js/workers/metadata_worker.js:18-52 | The proof is `merkle_proof` when present, `proof` otherwise. The attributes text is the unescaped raw text when found, and otherwise the record's own string; parsing a list fails. The record fails exactly when its text does not parse; otherwise the parsed list is that of the text |
| MetadataWorker.NormalizeObjectRecord | js/workers/metadata_worker.js:53-65 | a string is parsed, and fails exactly when parsing fails; a list is kept and serialised |
| MetadataWorker.NormalizeAll | js/workers/metadata_worker.js:18-65 | a file normalises exactly when each of its records does, giving the records one for one |
| MetadataWorker.BatchingSound | js/workers/metadata_worker.js:66-74 | file by file, the batches emitted and the buffer hold every loaded record once, in file order; each emitted batch has reached `batchSize`; the buffer left is empty or below it |
| MetadataWorker.EmittedSound | js/workers/metadata_worker.js:66-88 | the batches of a run, the leftover buffer included, concatenate to the loaded records; all but the last reach `batchSize`; none is empty for a positive `batchSize` |
| MetadataWorker.PostFlush | js/workers/metadata_worker.js:68-74 | a flushed buffer of at least `batchSize` records keeps every posted batch at least that long |
| MetadataWorker.PostError | js/workers/metadata_worker.js:75-81 | an error message names the file and delivers nothing |
| MetadataWorker.AddRecords | js/workers/metadata_worker.js:66-74 | When the buffer with the file's records reaches `batchSize`, it is posted as one batch and the buffer empties. Otherwise nothing is posted and the buffer holds the records. Between files the buffer stays empty or below `batchSize` |
| MetadataWorker.Step | js/workers/metadata_worker.js:7-81 | one file moves the posted batches and the buffer as the reference batching `Fill` does; a failed file adds its name to the errors |
| MetadataWorker.Finish | js/workers/metadata_worker.js:84-88 | a non-empty buffer is posted as the last batch, then "done" |
| MetadataWorker.Deliver | js/workers/metadata_worker.js:6-88 | The batches are exactly `Emitted`, the reference batching of the files, so a batch is posted at every file that brings the buffer to `batchSize`. They concatenate to the records of the files that loaded, in order. The errors name the failed files, and one final "done" closes the run |
| MetadataWorker.Run | js/workers/metadata_worker.js:1-89 | `Deliver` over the normalised files, with the message's batch size or the default of 200 |
| Mint.ChunkForToken | contract/mint.js:18-20 | the token lies in the thousand ids of its chunk; a non-negative id is in chunk 1 or later |
| Mint.ChunkRange | contract/mint.js:18-20 | ids 1000k to 1000k+999 are in chunk k+1 |
| Mint.ChunkMonotone | contract/mint.js:18-20 | a larger id is never in an earlier chunk |
| Mint.LoadTokenData | contract/mint.js:23-33 | an error exactly when the chunk file is missing, with its message; otherwise the entry under the decimal id, if any |
| Mint.Utf8Length | contract/mint.js:60-61 | between one and four bytes per character, one per ASCII character |
| Mint.GasEstimate | contract/mint.js:59-64 | at least the base of 50000, and exactly the base only without bytes or hashes |
| Mint.GasMonotone | contract/mint.js:62-64 | more bytes or hashes never lower the estimate; each byte adds 20 and each hash 2000 |
| Mint.ProofLines | contract/mint.js:53-56 | one line per hash, in order: indented, the hash quoted, and a trailing comma on every line except the last |
| Mint.ShowMintData | contract/mint.js:35-75 | A missing file reports its error; a missing token reports "not found". Otherwise: the id, 50-character previews, the character and byte counts, the gas estimate, and the proof lines, each holding its hash as `ProofLines` writes it |
| Mint.Dispatch | contract/mint.js:111-124 | no arguments or "info" gives the deployment info; "mint" with a non-empty id shows mint data; everything else gives usage |

## Left out

- User interface: DOM building, styling, HTML escaping, modals, copy buttons, lazy image loading, idle callbacks and animation-frame scheduling are not modelled. Only the plan of what is drawn is modelled.
- Network and platform: `fetch`, `Worker`, `localStorage` events, `ethers` providers and contracts, and the WNS/ENS lookups become parameters.
- Concurrency: timers, `Promise.all` and the interleaving of async handlers are not modelled.
  - A delayed step is a separate method call.
  - `main.js` cancels an ongoing chunked render through `isRendering`. This cancellation is not modelled.
- The RPC settings modal and `getRpcUrl` are not modelled, since they only read and write local storage for the UI.
- Chains.NormalizeChainId: only strict digit strings are read. `parseInt`'s acceptance of a valid prefix followed by junk, and `Number`'s handling of whitespace, "" (which gives 0), exponents and fractions, are not modelled. Such inputs give `None` (NaN) here.
- Common.Lower: lower-cases ASCII letters only. Unicode case mapping is not modelled.
- TraitCounts.TraitKeys: `Object.keys` lists integer-like keys first, in numeric order. This is not modelled, and keys that collide with `Object.prototype` names are not modelled either.
- Sorting each category's values by count (`js/app.js` 268-270, `js/main.js` 261-263) is not modelled. The panel carries the counts table itself.
- MetadataWorker.NormalizeArrayRecord: the text search of the raw file for a record's escaped `attributes` string is the parameter `rawAttributes`.
  - Every backslash pair is replaced by the character after the backslash, as the source's replacement does. JSON escapes such as `\n` or `\u0041` therefore do not become the characters they denote.
  - Fields copied by object spread, other than those the model names, are not modelled.
- `JSON.parse` and `JSON.stringify` are the parameters `parse` and `serialize`. A record without an `attributes` field is not modelled.
- `msg.final` is never sent by the worker; the model treats it as absent.
  - As the source is written, a batch whose arrival does not make the total a multiple of 400 is added to the items on show but not drawn. `OnBatch` models this as written, through its `drawn` result.
- MetadataWorker.Run: every file is normalised before the posting loop, not inside it. Normalisation depends only on the file, so the messages posted are the same.
- Mint: `getMerkleRoot` and `showDeploymentInfo` only print, and are not modelled.
  - `parseInt` of the token argument is not modelled: `ShowMint` carries the argument text.
  - `process.exit` and the joining of `DATA_DIR` into the path in the error message are not modelled. The message names the file only.
  - The printed formatting (emoji headers, `toLocaleString` of the gas) is not modelled.
- Wallet.ResolveName: a failed lookup counts as an absent name, as the source's catch blocks return null.
- Strings are sequences of Unicode characters. JavaScript's `length`, `substring` and `split("")` count UTF-16 code units, so lengths, previews and shortened forms differ from the source for characters outside the Basic Multilingual Plane.
- Wallet.ConnectWallet.GetChainId: `None` covers a missing provider and a rejected request, and also a chain id that normalises to NaN. The source returns null for the first two and NaN for the last.
- Notifications.NotificationCenter.Settle: a callback that throws on its second call inside the `catch` ends the watch with the exception; the unhandled rejection this produces is not modelled. The label and status text written to the DOM are not modelled.
- MetadataWorker.Run and ItemWorker.Run: a `batchSize` in the message is an integer or absent. `null` or a non-number, which JavaScript's comparison would coerce, is not modelled.
- Wallet: `getProvider`, `getEthersProvider`, the callback setters, `getNameResolutionOrder`, `render` and `updateAddress` only expose fields or draw, and are not modelled.
