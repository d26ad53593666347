# transfer-spotify, modelled in Dafny

The application copies one Spotify account's library to another account: its own playlists (with their tracks), its liked songs, its followed artists and its saved albums. The user signs in twice. The account store keeps both sessions. The selection screen picks the categories. The transfer screen then runs one strategy per category against a source session, which is only read, and a destination session, which is only written. While it runs it keeps a progress ledger with one row per category.

This project models that core and proves what it does:

- **`batching.dfy`** (`Batching`): `chunkArray` as a loop over an index that advances by the batch size. It is proved against the recursive definition `Chunks`, together with the batch facts: the batches flatten back to the input, their sizes are bounded, and there are ⌈n / size⌉ of them.
- **`spotify_api.dfy`** (`SpotifyApi`): the API client. It is a class `Api` whose `log` records every request the service answered.
  - The account's data on the service is a fixed `Library`.
  - The service answers the first `expiresAfter` requests and rejects every later one with the error `rejection`. This stands for any non-2xx answer other than 429.
  - The bulk writers, `followUsers` and the pagination drain `getAllItems` are loops proved against functions that give the exact requests they issue.
- **`progress.dfy`** (`Progress`): the ledger, meaning a row, the partial update `{ ...item, ...updates }`, `updateProgress`, the initial ledger and `completedCategories`. It also defines the predicates the run is proved to keep: statuses only move forward, counts never go down, `current ≤ total`, and a row leaves `pending` only after every earlier row completed.
- **`transfer_plan.dfy`** (`TransferPlan`): for each category, the destination writes a run issues when nothing fails. It also defines the filters the strategies apply (`filter(Boolean)` and the ownership filter) and the facts about those writes.
- **`transfer.dfy`** (`Transfer`): the transfer page as a class.
  - The class holds `progress`, `currentTask`, `isComplete` and `error`, plus a ghost history of every ledger value.
  - The four strategies, `transferCategory` and `startTransfer` are methods.
  - Each strategy is proved to write exactly its planned requests, or a prefix of them when a request fails, and to read nothing but listings from the source.
  - Through every update the ledger keeps its invariants. When the run stops at a failure, the ledger shows the completed rows, then the failed row, then rows still pending.
- **`auth_store.dfy`** (`AuthStore`): the account store as a class. Each action overwrites one part of it and keeps "authenticated ⇔ tokens and user known". It also holds the session-storage token helper as a map keyed by `<role>_tokens`.
- **`select.dfy`** (`Select`): the selection screen as functions over the category list, namely toggling, selecting all, deselecting all, the selected ids, the selected count, the item total and the count mapping. It also proves that the ids handed to the transfer screen are distinct, which `startTransfer` needs.

Behaviour of the code the model keeps:

- **Aborting the run:** the first failing category ends the whole run. The categories after it are never attempted and their rows stay pending.
- **Number of fetches in `getAllItems`:** the drain always fetches at least once, even for an empty listing. The fetch count is ⌈n / limit⌉ for n > 0 and 1 for n = 0 (`SpotifyApi.PageCount`).
- **Stopping rule of `getAllItems`:** the drain keeps fetching while fewer items than `total` have arrived. An empty page does not stop it by itself.
- **Shown totals:** the total shown for liked songs and saved albums counts the raw listing entries. `current` rises only to the number of ids left after `filter(Boolean)`, so a completed row can show `current < total`. The model proves `current ≤ total` always, and `current == total` only where the code gives it.

## Model

| member | source | states |
|---|---|---|
| Batching.ChunkArray | src/lib/spotify-api.ts:137-143 | The loop's result is the batches of `chunkSize` consecutive elements: they concatenate back to the input in order, each holds 1 to `chunkSize` elements, and there are ⌈n / chunkSize⌉ of them |
| Batching.FlattenChunks | src/lib/spotify-api.ts:137-143 | Concatenating the batches gives back the input, in order |
| Batching.ChunkSizes | src/lib/spotify-api.ts:139-141 | Every batch is non-empty and at most `chunkSize` long; every batch but the last is exactly `chunkSize` long |
| Batching.ChunkCount | src/lib/spotify-api.ts:137-143 | There are ⌈n / chunkSize⌉ batches, and none exactly when the input is empty |
| SpotifyApi.PageCount | src/lib/spotify-api.ts:154-159 | The number of fetches of the do-while is at least 1, covers the n items, and is ⌈n / limit⌉ when n > 0 |
| SpotifyApi.PageCountUnique | src/lib/spotify-api.ts:154-159 | k fetches are exactly enough for n items if and only if k is the page count |
| SpotifyApi.Api.constructor | src/lib/spotify-api.ts:7-14 | A new session has answered no request yet |
| SpotifyApi.Api.FetchPage | src/lib/spotify-api.ts:38-46 | A listing page is the window [offset, offset + limit) of the listing together with its total; it is logged when answered, and when refused, nothing is logged and the error is the rejection |
| SpotifyApi.Api.GetFollowedArtists | src/lib/spotify-api.ts:86-92 | A followed-artists page starts at the cursor and comes with a next cursor only while artists remain |
| SpotifyApi.Api.CreatePlaylist | src/lib/spotify-api.ts:48-55 | An answered creation is logged with the user, name, description and public flag, and returns the id the service gives it |
| SpotifyApi.Api.SendInBatches | src/lib/spotify-api.ts:59-65 | The writers' loop succeeds if and only if the service answers all its batch requests; it then logged exactly those requests, in order, and otherwise logged a strict prefix of them and reports the rejection |
| SpotifyApi.Api.AddTracksToPlaylist | src/lib/spotify-api.ts:57-66 | Sends the URIs in batches of at most 100 to the playlist, in order; success if and only if all are answered; otherwise a prefix is sent |
| SpotifyApi.Api.SaveTracksForUser | src/lib/spotify-api.ts:74-83 | Sends the track ids in batches of at most 50, in order; success if and only if all are answered |
| SpotifyApi.Api.FollowArtists | src/lib/spotify-api.ts:94-103 | Sends the artist ids in batches of at most 50, in order; success if and only if all are answered |
| SpotifyApi.Api.SaveAlbumsForUser | src/lib/spotify-api.ts:111-120 | Sends the album ids in batches of at most 50, in order; success if and only if all are answered |
| SpotifyApi.Api.FollowUsers | src/lib/spotify-api.ts:129-134 | Issues exactly one follow request per user id, in input order; success if and only if the service answers all of them |
| SpotifyApi.Api.GetAllItems | src/lib/spotify-api.ts:146-162 | Against a fixed listing, it requests offsets 0, limit, 2·limit, … in order, at least once; if every fetch is answered it returns exactly the listing; a refused fetch fails the drain with the rejection after a prefix of those requests |
| SpotifyApi.BulkRequestsCover | src/lib/spotify-api.ts:57-66 | A bulk writer's requests carry every id exactly once, in order, in ⌈n / max⌉ requests of 1 to max ids, all to its endpoint |
| SpotifyApi.NoRequestsForNoIds | src/lib/spotify-api.ts:59-65 | An empty id list produces no request at all |
| SpotifyApi.OneBatch | src/lib/spotify-api.ts:96-102 | A list no longer than the endpoint's limit goes out as a single request |
| Progress.UpdatedAt | src/app/transfer/page.tsx:17-23 | updateProgress keeps the ledger's length and order, merges the update into every row of the category, and leaves every other row unchanged |
| Progress.UpdatedAdvances | src/app/transfer/page.tsx:17-23 | An update whose status follows the touched rows' statuses, and whose count (if any) is not below theirs, leaves every row's category in place and moves no status and no count backwards |
| Progress.InitialProgress | src/app/transfer/page.tsx:60-65 | One row per selected category, in selection order, each with current 0, total 0, status pending and no error |
| Progress.CompletedCount | src/app/transfer/page.tsx:221 | completedCategories is at most the number of rows, and equals it if and only if every row is completed |
| Progress.CompletedCountOfRun | src/app/transfer/page.tsx:221 | A ledger of k completed rows followed by rows that are not completed counts k completed categories |
| Progress.FailFastShape | src/app/transfer/page.tsx:68-80 | In a ledger where a row leaves pending only after all earlier rows completed, the failed row follows completed rows only and precedes pending rows only |
| TransferPlan.Truthy | src/app/transfer/page.tsx:131 | `filter(Boolean)` never lengthens the list |
| TransferPlan.TruthyKeeps | src/app/transfer/page.tsx:131 | `filter(Boolean)` keeps exactly the present, non-empty strings |
| TransferPlan.TruthyAppend | src/app/transfer/page.tsx:131 | `filter(Boolean)` of a concatenation is the concatenation of the filtered parts, so kept strings keep their order and their repeats |
| TransferPlan.Owned | src/app/transfer/page.tsx:107-109 | The ownership filter never lengthens the list |
| TransferPlan.OwnedKeeps | src/app/transfer/page.tsx:107-109 | The ownership filter keeps exactly the playlists whose owner is the source user, and none when no source user is known |
| TransferPlan.OwnedAppend | src/app/transfer/page.tsx:107-109 | The ownership filter of a concatenation is the concatenation of the filtered parts, so owned playlists keep the listing order and their repeats |
| TransferPlan.UnhandledCategoryWritesNothing | src/app/transfer/page.tsx:42-43 | A category with no strategy, such as followedUsers, writes nothing |
| TransferPlan.PlaylistsWritesPrefix | src/app/transfer/page.tsx:113-141 | The writes for the first i owned playlists are a prefix of the writes for all of them |
| TransferPlan.RunWritesPrefix | src/app/transfer/page.tsx:69-72 | The writes of the first i categories are a prefix of the whole run's writes |
| TransferPlan.OneCreationPerPlaylist | src/app/transfer/page.tsx:113-128 | The playlist strategy creates exactly one destination playlist per owned playlist, in order, under the destination user, with the same name, description and public flag |
| TransferPlan.CopyCreations | src/app/transfer/page.tsx:122-135 | Copying one playlist creates exactly one playlist, whatever its tracks |
| TransferPlan.LikedSongsInThreeBatches | src/app/transfer/page.tsx:152-163 | 120 liked-song ids go out as three requests of 50, 50 and 20 ids, in order |
| AuthStore.AuthState.constructor | src/lib/auth-store.ts:30-33 | Both accounts start as {null, null, false}, the step as landing, and the invariant holds |
| AuthStore.AuthState.SetSourceAccount | src/lib/auth-store.ts:35-41 | Stores the tokens and user and sets isAuthenticated; the destination account and the step do not change; the invariant is kept |
| AuthStore.AuthState.SetDestinationAccount | src/lib/auth-store.ts:43-49 | Symmetric: only the destination account changes |
| AuthStore.AuthState.ClearSourceAccount | src/lib/auth-store.ts:51-53 | The source account returns to {null, null, false}; nothing else changes |
| AuthStore.AuthState.ClearDestinationAccount | src/lib/auth-store.ts:55-57 | The destination account returns to {null, null, false}; nothing else changes |
| AuthStore.AuthState.SetCurrentStep | src/lib/auth-store.ts:59 | Only the step changes |
| AuthStore.AuthState.Reset | src/lib/auth-store.ts:61-65 | Both accounts return to the initial value and the step to landing |
| AuthStore.TokenKey | src/lib/auth-store.ts:72 | The key is `<role>_tokens`: `source_tokens` for the source role and `destination_tokens` for the destination role |
| AuthStore.TokenStorage.GetTokens | src/lib/auth-store.ts:76-82 | Outside a browser the read gives null; in a browser it gives the tokens stored under the role's key, or null when that key is absent |
| AuthStore.TokenKeysDistinct | src/lib/auth-store.ts:70-95 | The two roles never share a storage key |
| AuthStore.TokenStorage.SetTokens | src/lib/auth-store.ts:70-74 | In a browser, reading the role back gives the tokens just set; the other role's tokens are unaffected; outside a browser nothing changes |
| AuthStore.TokenStorage.ClearTokens | src/lib/auth-store.ts:84-88 | A later read of the role gives null; the other role is unaffected |
| AuthStore.TokenStorage.ClearAllTokens | src/lib/auth-store.ts:90-95 | Later reads of both roles give null |
| Transfer.WriteChunk | src/app/transfer/page.tsx:156-157 | One batch of at most 50 ids goes out as exactly one request to its endpoint |
| Transfer.DrainFollowedArtists | src/app/transfer/page.tsx:167-175 | The cursor drain only reads: first a page with no cursor, then one page per cursor handed back, ⌈n / 50⌉ pages (at least one) in all. It succeeds if and only if the service answers all of them, and then returns exactly the followed artists in the service's order; on a refused page it fails with the rejection after a prefix of those requests; a healthy session never fails |
| Transfer.MarkedRows | src/app/transfer/page.tsx:26-50 | transferCategory's three updates leave other categories' rows unchanged and end the category's rows with the final status and, on failure, the message |
| Transfer.RunLedgerFailed | src/app/transfer/page.tsx:68-80 | After the k-th category fails, the ledger has k completed rows, then the error row, then pending rows, and none in progress |
| Transfer.RunLedgerDone | src/app/transfer/page.tsx:68-76 | When every category completed, all rows are completed, in selection order |
| Transfer.TransferPage.constructor | src/app/transfer/page.tsx:12-15 | The page starts with an empty ledger, no task, not complete and no error |
| Transfer.TransferPage.UpdateProgress | src/app/transfer/page.tsx:17-23 | The ledger becomes the merged ledger, and the new value is recorded in the history |
| Transfer.TransferPage.ShowCount | src/app/transfer/page.tsx:159 | Showing a count within the row's total keeps every row within its total and the history moving forward, and changes only that category's counts |
| Transfer.TransferPage.ShowTotal | src/app/transfer/page.tsx:111 | Setting a category's total before anything is counted changes only that category's counts, records one more ledger and keeps every row within its total |
| Transfer.TransferPage.SaveRound | src/app/transfer/page.tsx:155-162 | One round of the batch loop: a refused write changes neither the log nor the ledger; an answered one adds exactly the next batch to the log and shows min(i + 50, n) in one more ledger |
| Transfer.TransferPage.SaveInChunks | src/app/transfer/page.tsx:151-163 | The ids go out in batches of 50, in order, until the first refused write. After the j-th answered write the row shows min((j + 1)·50, n), never past the total. On both outcomes the log holds exactly the batches of the first `sent` ids and the row shows `sent`: all n on success, fewer on failure |
| Transfer.TransferPage.CopyPlaylist | src/app/transfer/page.tsx:114-137 | Copying a playlist reads its tracks, creates the copy under the destination user and adds its truthy URIs in batches of 100 only when there are some; it fails on a refused request, and when no destination user is known it fails before writing anything |
| Transfer.TransferPage.CopyRound | src/app/transfer/page.tsx:113-140 | One round of the playlist loop: a failed copy records no ledger and writes at most that playlist's copy; a finished one adds exactly the copy to the log and shows i + 1 in one more ledger |
| Transfer.TransferPage.CopyPlaylists | src/app/transfer/page.tsx:113-141 | The owned playlists are copied in order, and after the i-th finished copy current is i + 1, in a ledger of its own. On both outcomes the row shows the number of finished copies, all of whose writes are in the log; on failure nothing past the failed copy is written; on success current equals the total. With no destination user and an owned playlist it fails having written nothing |
| Transfer.TransferPage.TransferPlaylists | src/app/transfer/page.tsx:101-142 | The playlist strategy reads all playlists, sets the total to the owned count and writes exactly the planned copies, or a prefix of them on failure; only the category's counts change; with no destination user and an owned playlist it fails having written nothing |
| Transfer.TransferPage.TransferLikedSongs | src/app/transfer/page.tsx:144-164 | Sets the total to the number of liked songs and saves the truthy track ids in batches of 50; on success current is the number of ids |
| Transfer.TransferPage.TransferFollowedArtists | src/app/transfer/page.tsx:166-192 | Drains the artists, sets the total to their number and follows their ids in batches of 50; on success current equals the total |
| Transfer.TransferPage.TransferSavedAlbums | src/app/transfer/page.tsx:194-214 | Sets the total to the number of saved albums and saves the truthy album ids in batches of 50 |
| Transfer.TransferPage.RunStrategy | src/app/transfer/page.tsx:29-44 | The switch runs the category's strategy, and for any other name does nothing and succeeds |
| Transfer.TransferPage.MarkStarted | src/app/transfer/page.tsx:26 | The category's rows go in progress with nothing counted, keeping the history moving forward |
| Transfer.TransferPage.MarkFinished | src/app/transfer/page.tsx:46-48 | The final status (completed, or error with the message) is merged into the in-progress rows, keeping the history moving forward |
| Transfer.TransferPage.TransferCategory | src/app/transfer/page.tsx:25-51 | The category ends completed or in error with the failure's message, which is passed on; other rows are unchanged; no status goes back; the first ledger it records is the in-progress one; its writes are exactly its plan on success and a prefix on failure |
| Transfer.TransferPage.RunOne | src/app/transfer/page.tsx:69-72 | One round of the loop announces the category and transfers it; on success the log holds exactly the writes of the categories so far; on failure the ledger has the run's fail-fast shape and the log stays within the failed category's plan |
| Transfer.TransferPage.RunCategories | src/app/transfer/page.tsx:68-80 | Categories run strictly in order and the loop stops at the first failure; it succeeds if and only if every category completed; later categories stay pending; the destination holds exactly the run's writes on success; on failure it holds all the completed categories' writes and nothing from a category after the failed one |
| Transfer.TransferPage.ResetLedger | src/app/transfer/page.tsx:60-66 | The ledger becomes one fresh row per selected category, recorded in the history, with no category started |
| Transfer.TransferPage.Launch | src/app/transfer/page.tsx:60-73 | A fresh ledger, then the run: the first recorded ledger is the fresh one; the run succeeds if and only if every category completed; the source is only read; the completed categories' writes are all present and nothing after the failed category is written; the failed row is in error with the message |
| Transfer.TransferPage.Conclude | src/app/transfer/page.tsx:74-79 | After a failure only `error` is set; after success the run is marked complete and the flow moves to the complete step |
| Transfer.TransferPage.Proceed | src/app/transfer/page.tsx:59-80 | Past the token guard: the ledger starts fresh and the run is fail-fast; on success the log holds exactly the run's writes and isComplete, "Transfer completed!" and the complete step are set; on failure the completed categories' writes are present, nothing after the failed category is written, the failed row and `error` carry the message, and the step is unchanged |
| Transfer.TransferPage.StartTransfer | src/app/transfer/page.tsx:53-81 | Without both tokens nothing changes; otherwise the ledger starts fresh, the source is only read, the run is fail-fast, success leaves exactly the run's writes and sets isComplete, failure keeps the completed categories' writes, writes nothing after the failed category and keeps the message in `error`, and healthy sessions complete the run |
| Select.Toggle | src/app/select/page.tsx:81-87 | Toggling keeps the list's ids and order |
| Select.ToggleOnlyMatching | src/app/select/page.tsx:81-87 | Toggling flips `selected` on the matching rows only and changes nothing else |
| Select.ToggleTwice | src/app/select/page.tsx:81-87 | Toggling the same id twice gives back the original list |
| Select.ToggleCount | src/app/select/page.tsx:81-87 | With distinct ids, toggling a listed category moves selectedCount by one, down if it was selected and up otherwise |
| Select.SelectAll | src/app/select/page.tsx:89-91 | selectAll keeps the ids and their order |
| Select.DeselectAll | src/app/select/page.tsx:93-95 | deselectAll keeps the ids and their order |
| Select.SelectAllIdempotent | src/app/select/page.tsx:89-91 | selectAll twice is selectAll once |
| Select.DeselectAllIdempotent | src/app/select/page.tsx:93-95 | deselectAll twice is deselectAll once |
| Select.SelectAllHandsOverAll | src/app/select/page.tsx:89-91 | After selectAll every id is handed over in display order, and the total is every row's count |
| Select.DeselectAllHandsOverNothing | src/app/select/page.tsx:93-95 | After deselectAll nothing is handed over, the count is 0 and the total is 0 |
| Select.Selected | src/app/select/page.tsx:98 | The filter never lengthens the list |
| Select.SelectedMembers | src/app/select/page.tsx:98 | The filter keeps exactly the selected rows |
| Select.SelectedIdsAppend | src/app/select/page.tsx:98 | The handed-over ids come in display order |
| Select.SelectedIdsMembers | src/app/select/page.tsx:98 | An id is handed over if and only if some row with that id is selected |
| Select.SelectedIdsDistinct | src/app/select/page.tsx:98 | Rows with distinct ids hand over distinct ids |
| Select.SelectedIds | src/app/select/page.tsx:98-106 | As many ids are handed over as selectedCount says |
| Select.SelectedCountRange | src/app/select/page.tsx:106 | selectedCount is 0 if and only if nothing is selected, and the list's length if and only if everything is |
| Select.TotalItemsIsSelectedSum | src/app/select/page.tsx:107 | totalItems is the sum of the counts of the selected rows only |
| Select.ApplyCounts | src/app/select/page.tsx:45-65 | The count mapping keeps the ids and their order |
| Select.ApplyCountsFacts | src/app/select/page.tsx:45-65 | Each category gets its own listing's total (0 if that request failed), followedUsers gets 0, every row stops loading, the selection is untouched, and applying it twice changes nothing more |
| Select.ApplyCountsKeepsSelection | src/app/select/page.tsx:45-65 | Loading the counts never changes the handed-over ids |
| Select.FetchDataCounts | src/app/select/page.tsx:31-70 | Fetching the counts keeps the ids and their order |
| Select.FetchedInitialTotal | src/app/select/page.tsx:31-70 | On the initial list, loading the counts with the source tokens makes totalItems the sum of the four transferable listings' totals (0 for a failed request) and stops every row loading; without the tokens every row stays loading and the total stays 0 |
| Select.InitialSelection | src/app/select/page.tsx:21-27 | The initial list hands over playlists, likedSongs, followedArtists and savedAlbums in that order (followedUsers unselected), has distinct ids, counts nothing and is loading |

## Left out

- The 429 interceptor (src/lib/spotify-api.ts:17-28) is not modelled: it is a timer-based wait of `retryAfter || 1` seconds and a re-issue of the request. A request the service answers after retries counts as one answered request here.
- The 100 ms pauses between batches are timing only.
- overallProgress (src/app/transfer/page.tsx:217-219) is a floating-point percentage and is not modelled. It is NaN when every total is 0.
- The OAuth routes, the auth and callback pages, the UI components, JSON (de)serialisation of the stored tokens and of the selected-category list, URL strings, React state batching, router redirects and the effects that trigger fetchDataCounts and startTransfer are not part of this model.
- SpotifyApi.Api.CreatePlaylist: the service's choice of playlist ids is an arbitrary function of the request's position in the log. Nothing is assumed about it.
- SpotifyApi.Api.GetAllItems: the drain is modelled against a fixed listing whose pages report its true length as `total`. A service whose `total` disagrees with its pages, on which the source can loop forever, is not modelled. The listing's contents are a parameter that nothing ties to the session's `library`; the callers (CopyPlaylist, TransferPlaylists, TransferLikedSongs, TransferSavedAlbums) pass the matching `library` field.
- SpotifyApi.Api.GetFollowedArtists: the `after` cursor is the position to resume from, not an opaque string. An empty-string cursor, which the code treats as the end, is not modelled.
- Transfer.TransferPage.StartTransfer: it requires distinct category names. With a repeated name, updateProgress would touch both rows of that name. The selection screen only hands over distinct ids (Select.SelectedIdsDistinct with Select.InitialSelection).
- Transfer.TransferPage.TransferCategory: an error that is not an `Error` instance ('Unknown error') does not arise in the model. Every failure is the service's rejection or the null-user TypeError.
- Select.FetchDataCounts: the outer catch of fetchDataCounts (loading ends, counts unchanged) is not modelled, because every request in it has its own catch. Service totals are inputs.
- The failures the model knows are a refused request and a missing destination user. A network or server fault is one more refused request.
