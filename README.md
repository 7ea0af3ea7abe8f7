# OnFit frontend core, modelled in Dafny

This project models the logic of the OnFit web frontend, a React application
for recommending sports vouchers and home workouts. It covers the parts of
the frontend that compute or keep state, and leaves out the rendering:

- **Chat** (`ChatStream`, `ChatSession`, `ChatTypes`). The reader turns the
  streamed chat response into `onChunk`, `onComplete` and `onError`
  callbacks. The chat window folds the streamed records into its message
  list and draws version-4-UUID-shaped session ids.
- **Vouchers** (`VoucherApi`, `VoucherBrowse`, `VoucherMap`):
  - the list request's query string and the paging of its built-in fallback data;
  - the region guessed from the user's coordinates;
  - infinite-list paging, the list pager and filters;
  - on the map view: geocoding in batches with a coordinate cache, the
    de-duplicating merge of batch results, the marker diff, and the
    draggable bottom sheet.
- **Likes** (`LikedVouchers`, `RecommendationHistory`):
  - optimistic like and unlike over nested pages, with an in-flight id set and rollback;
  - the recommendation history's like enrichment, its like and unlike handlers, mood tags and video count.
- **Media** (`MediaUpload`, `MediaHook`): uploading through presigned URLs,
  URL cleaning, and the upload hook's image limit, removal and previews.
- **Forms and widgets** (`PostForms`, `AuthForms`, `CharacterSelect`, `Faq`,
  `ApiConfig`): post editing and writing, sign-up and log-in, the character
  carousel, the FAQ accordion and the choice of API base URL.

`Wrappers` holds `Option` and `Result`. `Text` models the JavaScript string
operations the code relies on: `trim`, `split` on one character, `startsWith`,
`includes`, replacing the first occurrence, and decimal formatting.

Code that only computes a value is modelled as functions. State that a
component keeps and its handlers change is modelled as a class with methods:

- the chat window
- the coordinate cache, the plot, the marker layer and the bottom sheet
- the liked list and the history screen
- the upload hook
- the two post forms
- the carousel and the accordion

Loops in the source stay loops, each proved against a specification function:

- the stream read loop and its line loop
- the geocoding partition and the batch loop
- the marker diff
- the original-voucher scan
- the like-count map
- the upload loops

Outside effects are parameters of the model:

- the network: how a request settled, or the geocoder's answer per address
- clocks and random draws
- JSON parsing
- the presign service

## Model

| member | source | states |
|---|---|---|
| Text.Trim | src/apis/chat/chatApi.ts:50 | `trim` yields a contiguous part of the input with no whitespace at either end |
| Text.TrimCutsOnlySpace | src/apis/chat/chatApi.ts:50 | everything `trim` cuts from either end is whitespace |
| Text.TrimBlank | src/pages/Community/components/PostEditModal.tsx:44-46 | trimming yields the empty string exactly when the text is all whitespace |
| Text.TrimIdempotent | src/pages/Community/components/PostEditModal.tsx:44 | trimming twice is trimming once |
| Text.IncludesAt | src/utils/apiConfig.ts:11 | `includes` holds exactly when the pattern occurs at some index |
| Text.IncludesChar | src/pages/SignUp/component/SignUpContent.tsx:24 | for one character, `includes` is membership |
| Text.JoinSplit | src/apis/chat/chatApi.ts:47 | joining the pieces of a split with the separator gives the text back |
| Text.Split | src/apis/chat/chatApi.ts:47 | `split` yields at least one piece, and exactly one when the separator does not occur |
| Text.SplitJoin | src/pages/Home/components/RecommendationHistoryContent.tsx:328-333 | splitting a join of separator-free pieces gives the pieces back |
| Text.SplitFirst | src/utils/mediaUpload.ts:20-22 | the first piece of a split is the text before the first separator |
| Text.IndexOf | src/utils/mediaUpload.ts:20-22 | the position of the first separator, with no separator before it; the length exactly when there is none |
| Text.ReplaceFirstAt | src/utils/mediaUpload.ts:5-8 | replace-first rewrites exactly the first occurrence |
| Text.ReplaceFirstAbsent | src/utils/mediaUpload.ts:5-8 | replace-first leaves a text without the pattern unchanged |
| Text.ReplaceFirst | src/utils/mediaUpload.ts:7 | the text is unchanged, or one occurrence of the pattern is replaced and the length changes by the length difference |
| Text.DecimalValue | src/constants/systemMessages.ts:3-4 | decimal text reads back as the number |
| Text.Decimal | src/constants/systemMessages.ts:3-4 | `toString()` of a non-negative integer: at least one decimal digit, no leading zero |
| Text.DecimalInjective | src/components/chat/ChatModal.tsx:80 | different numbers have different decimal texts, so clock-reading ids are distinct |
| ChatStream.PayloadRoundTrip | src/apis/chat/chatApi.ts:50-55 | a trimmed payload after "data: " or "data:" is read back unchanged |
| ChatStream.Payload | src/apis/chat/chatApi.ts:50-55 | a payload exists exactly when the trimmed line starts with "data:", and it is what follows "data: " or "data:" |
| ChatStream.LineEventsSpec | src/apis/chat/chatApi.ts:50-66 | a line yields one record exactly when it is a data line with a non-empty payload that parses, and the record is the parse |
| ChatStream.LineEvents | src/apis/chat/chatApi.ts:50-66 | at most one record per line, and only the parse of the line's payload |
| ChatStream.NonDataLineIgnored | src/apis/chat/chatApi.ts:50-51 | a line whose trimmed form does not start with "data:" yields nothing |
| ChatStream.LinesEventsAppend | src/apis/chat/chatApi.ts:49-68 | a line that yields nothing or fails to parse does not affect later lines |
| ChatStream.StreamEventsAppend | src/apis/chat/chatApi.ts:38-69 | reads are processed independently, in order |
| ChatStream.SplitRecordReadAsTwoLines | src/apis/chat/chatApi.ts:45-49 | a record cut across two reads is seen as two separate lines; nothing is buffered |
| ChatStream.ChunkSignalsAreChunks | src/apis/chat/chatApi.ts:58-62 | the i-th record becomes the i-th `onChunk` call |
| ChatStream.SignalsShape | src/apis/chat/chatApi.ts:24-43 | the callbacks are either a single `onError`, or `onChunk` calls followed by exactly one `onComplete` or `onError`; `onComplete` happens exactly for an ok status with a body whose reads end in `done` |
| ChatStream.Signals | src/apis/chat/chatApi.ts:24-43 | at least one callback; the last is `onComplete` exactly for an ok status with a body whose reads end in `done` |
| ChatStream.SendMessage | src/apis/chat/chatApi.ts:4-77 | the read loop makes exactly the callbacks the stream specification gives, and `chunkCount` is the number of records |
| ChatStream.ReadChunk | src/apis/chat/chatApi.ts:45-68 | one read hands each of its records to `onChunk` in line order and counts them |
| ChatStream.ReadLine | src/apis/chat/chatApi.ts:50-66 | one line hands over what the line specification yields |
| ChatSession.HexDigit | src/components/chat/ChatModal.tsx:18 | `toString(16)` of a digit is a lowercase hex character |
| ChatSession.GenerateSessionId | src/components/chat/ChatModal.tsx:14-20 | the id has the template's length, one character per template position |
| ChatSession.FillCharConforms | src/components/chat/ChatModal.tsx:15-18 | an 'x' becomes a hex digit, a 'y' one of 8, 9, a, b, and other characters stay |
| ChatSession.SessionIdFormat | src/components/chat/ChatModal.tsx:14-20 | every generated id is 36 characters: hyphens at 8, 13, 18 and 23, '4' at 14, one of "89ab" at 19, lowercase hex elsewhere |
| ChatSession.ApplyChunk | src/components/chat/ChatModal.tsx:118-159 | a record changes only the last message, and only when it is the placeholder: a talk record appends its chunk and keeps streaming; a recommendation sets the message and the vouchers, a home workout the message and the videos, both ending streaming; any other type changes nothing |
| ChatSession.ApplyChunks | src/components/chat/ChatModal.tsx:116-159 | a run of records keeps the length, every message before the last, and the last message's id |
| ChatSession.ApplyChunksSnoc | src/components/chat/ChatModal.tsx:116-159 | one more record applies to the list the earlier records left |
| ChatSession.FinalRecordReplaces | src/components/chat/ChatModal.tsx:138-155 | after any run, a recommendation or home-workout record replaces the placeholder's text with its message, ends streaming and attaches its vouchers or videos |
| ChatSession.TalkStreamConcatenates | src/components/chat/ChatModal.tsx:130-137 | a run of talk records makes the placeholder's text the old text followed by every chunk in order, still streaming |
| ChatSession.StaleChunksIgnored | src/components/chat/ChatModal.tsx:121-128 | once the placeholder is not last, records change nothing |
| ChatSession.TalkAfterRecommend | src/components/chat/ChatModal.tsx:130-146 | a talk record after a recommendation appends to its text, streams again and keeps the vouchers |
| ChatSession.CompleteLast | src/components/chat/ChatModal.tsx:163-170 | completion clears streaming only on a last message that is the placeholder; nothing else changes |
| ChatSession.AppendError | src/components/chat/ChatModal.tsx:175-183 | an error appends one bot apology and keeps the list before it |
| ChatSession.ChatModal.constructor | src/components/chat/ChatModal.tsx:23-25 | no messages, no session id, not loading |
| ChatSession.ChatModal.OpenEffect | src/components/chat/ChatModal.tsx:30-44 | opening without a session id draws one and shows the welcome message; otherwise nothing changes |
| ChatSession.ChatModal.Send | src/components/chat/ChatModal.tsx:76-112 | blank text or a send in progress changes nothing; otherwise the raw user text and an empty streaming placeholder are appended and the request is built |
| ChatSession.ChatModal.OnChunk | src/components/chat/ChatModal.tsx:116-159 | the list becomes the chunk reducer's result |
| ChatSession.ChatModal.OnComplete | src/components/chat/ChatModal.tsx:161-171 | loading ends and the completion reducer applies |
| ChatSession.ChatModal.OnError | src/components/chat/ChatModal.tsx:172-184 | loading ends and the apology is appended |
| ChatSession.ChatModal.Reset | src/components/chat/ChatModal.tsx:188-205 | the server reset is requested when there is a session; the list becomes the single reset greeting and a new session id is drawn, even if the reset fails |
| VoucherApi.QueryParams | src/api/voucher.ts:127-131 | area (if given), sports (if given), then always page and size, in that order |
| VoucherApi.QueryFilterKeys | src/api/voucher.ts:128-129 | a filter key is sent exactly when the filter is given and non-empty |
| VoucherApi.QueryNumbersRoundTrip | src/api/voucher.ts:130-131 | the page and size values read back as the numbers |
| VoucherApi.FilterArea | src/api/voucher.ts:155-157 | keeps exactly the vouchers of the area and is never longer |
| VoucherApi.FilterSports | src/api/voucher.ts:158-160 | keeps exactly the vouchers of the sport and is never longer |
| VoucherApi.FilterAreaCount | src/api/voucher.ts:155-157 | each voucher of the area is kept as often as it occurs; no other is kept |
| VoucherApi.FilterSportsCount | src/api/voucher.ts:158-160 | each voucher of the sport is kept as often as it occurs; no other is kept |
| VoucherApi.FilterAreaAppend | src/api/voucher.ts:155-157 | filtering keeps list order: filtering two lists end to end is filtering each, end to end |
| VoucherApi.FilterSportsAppend | src/api/voucher.ts:158-160 | the same for the sport filter |
| VoucherApi.FilterVouchers | src/api/voucher.ts:154-160 | never longer than the input, and only input vouchers matching every given filter |
| VoucherApi.FilterVouchersCount | src/api/voucher.ts:154-160 | each voucher matching every given filter is listed as often as it occurs; no other |
| VoucherApi.FilterMeaning | src/api/voucher.ts:154-160 | a voucher is listed exactly when it matches every given filter |
| VoucherApi.Slice | src/api/voucher.ts:164 | `slice` clips to the list and is empty past its end |
| VoucherApi.CeilDiv | src/api/voucher.ts:166 | the smallest page count that covers the list |
| VoucherApi.PageOf | src/api/voucher.ts:162-177 | content is the page's slice; `totalPages` is the ceiling of the count over the size; `first`, `empty`, `number`, `size` and `numberOfElements` as the pager sets them |
| VoucherApi.LastMeansNextEmpty | src/api/voucher.ts:171-172 | `last` holds exactly when the next page is empty |
| VoucherApi.PagesBeforeTotalNonEmpty | src/api/voucher.ts:165-166 | every page before `totalPages` has content |
| VoucherApi.PagesUpToPrefix | src/api/voucher.ts:162-164 | the first k pages laid end to end are a prefix of the filtered list |
| VoucherApi.AllPagesAreFiltered | src/api/voucher.ts:162-166 | all pages together are exactly the filtered list |
| VoucherApi.UseMockData | src/api/voucher.ts:146-177 | the page holds only built-in vouchers matching every given filter, and the total never exceeds the built-in count |
| VoucherApi.PageWithinFilter | src/api/voucher.ts:154-177 | a page of a filtered list holds only listed vouchers matching every given filter |
| VoucherApi.FetchVouchers | src/api/voucher.ts:120-143 | the server's page when it answers, the built-in page on a bad status or network failure |
| VoucherBrowse.RegionName | src/pages/Voucher/components/VoucherContent.tsx:48-64 | every region name is non-empty and has no outer whitespace |
| VoucherBrowse.RegionNameAsWritten | src/pages/Voucher/components/VoucherContent.tsx:48-64 | every name as the lookup returns it: the bare name, except Gyeonggi with two trailing spaces |
| VoucherBrowse.Locate | src/pages/Voucher/components/VoucherContent.tsx:48-65 | a region is found only inside the outer bounds of all boxes, latitude 33.2 to 38.6 and longitude 126.1 to 129.6 |
| VoucherBrowse.FirstMatchMeaning | src/pages/Voucher/components/VoucherContent.tsx:46-66 | the table scan returns the first box holding the point, or nothing |
| VoucherBrowse.LocateIsFirstMatch | src/pages/Voucher/components/VoucherContent.tsx:48-65 | the if-chain is the first-match reading of the box table |
| VoucherBrowse.EstimateRegionAsWritten | src/pages/Voucher/components/VoucherContent.tsx:46-66 | "" exactly outside every box; the corrected name with two spaces added for Gyeonggi, the corrected name otherwise |
| VoucherBrowse.EstimateRegion | src/pages/Voucher/components/VoucherContent.tsx:46-66 | "" exactly outside every box; otherwise a name with no outer whitespace |
| VoucherBrowse.SeoulBeforeGyeonggi | src/pages/Voucher/components/VoucherContent.tsx:48-56 | a point in both the Seoul and the Gyeonggi box is Seoul |
| VoucherBrowse.GyeonggiPadded | src/pages/Voucher/components/VoucherContent.tsx:56 | as written, the Gyeonggi result is not equal to its own trim |
| VoucherBrowse.DetectLocation | src/pages/Voucher/components/VoucherContent.tsx:33-81 | as written: detection always completes; the position is kept when there is one; the area becomes the returned name, Gyeonggi padded, exactly when a region was found, and stays otherwise |
| VoucherBrowse.DetectLocationIntended | src/pages/Voucher/components/VoucherContent.tsx:33-81 | the same with bare names: a detected area is the region's name and is its own trim |
| VoucherBrowse.DetectionDiffersOnGyeonggi | src/pages/Voucher/components/VoucherContent.tsx:56-72 | the two differ only on Gyeonggi, where the written area is the bare name plus two spaces and not its own trim |
| VoucherBrowse.NextPageParam | src/pages/Voucher/components/VoucherContent.tsx:105-107 | no next page after a last page, else the number of pages loaded |
| VoucherBrowse.ListVouchers | src/pages/Voucher/components/VoucherContent.tsx:121 | no data gives no vouchers; otherwise a voucher is listed exactly when some loaded page holds it |
| VoucherBrowse.FlattenMembers | src/pages/Voucher/components/VoucherContent.tsx:121 | flattening the pages loses and invents no voucher: membership iff some page holds it |
| VoucherBrowse.LoadedPagesFlatten | src/pages/Voucher/components/VoucherContent.tsx:121 | the flattened pages are the list's first pages end to end |
| VoucherBrowse.NextPageIsNextNumber | src/pages/Voucher/components/VoucherContent.tsx:105-107 | the parameter asked for is the next page's number |
| VoucherBrowse.ListCompleteAtLast | src/pages/Voucher/components/VoucherContent.tsx:105-121 | when paging stops, the list holds every matching voucher once, in order |
| VoucherBrowse.MapVouchers | src/pages/Voucher/components/VoucherContent.tsx:122 | the map page's content, or nothing |
| VoucherBrowse.ListViewProps | src/pages/Voucher/components/VoucherContent.tsx:173-180 | as written: the list view gets the filter values and no page props |
| VoucherBrowse.MapViewProps | src/pages/Voucher/components/VoucherContent.tsx:196 | the map view gets page 0 of 0 pages |
| VoucherBrowse.ListViewPropsIntended | src/types/voucher.ts:4-14 | the list view's props with the page and page count its props type declares |
| VoucherBrowse.SelectArea | src/pages/Voucher/components/VoucherListContent.tsx:27-30 | the area is set and the sport kept; the page reset to 0 is requested when there are page props, and the handler throws exactly when there are none |
| VoucherBrowse.SelectSports | src/pages/Voucher/components/VoucherListContent.tsx:42-45 | the sport is set and the area kept; the page reset to 0 is requested when there are page props, and the handler throws exactly when there are none |
| VoucherBrowse.PagerUnreachableAsWritten | src/pages/Voucher/components/VoucherContent.tsx:173-203 | as written, neither view shows the pager, and a list-view filter change sets the value and then throws |
| VoucherBrowse.FilterChangeResetsPageIntended | src/pages/Voucher/components/VoucherListContent.tsx:27-45 | with page props, a filter change sets the value and asks for page 0 without throwing, and the pager shows exactly for more than one page |
| VoucherBrowse.PreviousPage | src/pages/Voucher/components/VoucherListContent.tsx:119 | one page back, never below 0 |
| VoucherBrowse.NextPage | src/pages/Voucher/components/VoucherListContent.tsx:129 | one page forward, never past the last |
| VoucherBrowse.PagerStaysInRange | src/pages/Voucher/components/VoucherListContent.tsx:116-130 | from a page in range both buttons stay in range, and a button is disabled exactly when it would not move |
| VoucherBrowse.NextUndoesPrevious | src/pages/Voucher/components/VoucherListContent.tsx:119-129 | next after previous returns to the page, except from page 0 |
| VoucherBrowse.PagerLabelReadsBack | src/pages/Voucher/components/VoucherListContent.tsx:125-127 | the label is the one-based page, " / ", and the page count, each read back from the text around the first slash |
| VoucherMap.Partition | src/pages/Voucher/components/VoucherMapContent.tsx:67-83 | the first pass yields the cached results and the work list, as specified |
| VoucherMap.Hits | src/pages/Voucher/components/VoucherMapContent.tsx:69-83 | never more results than vouchers; each at the coordinates cached for its address |
| VoucherMap.Misses | src/pages/Voucher/components/VoucherMapContent.tsx:69-83 | never more entries than vouchers; each considered and with an uncached address |
| VoucherMap.MissesMeaning | src/pages/Voucher/components/VoucherMapContent.tsx:69-83 | the work list holds exactly the considered vouchers whose address is not cached |
| VoucherMap.HitsMeaning | src/pages/Voucher/components/VoucherMapContent.tsx:69-83 | the cached results are exactly the considered vouchers with a cached address, at the cached coordinates |
| VoucherMap.BatchesTile | src/pages/Voucher/components/VoucherMapContent.tsx:91-92 | the batches concatenate to the work list; each holds 1 to 5 items, all but the last exactly 5 |
| VoucherMap.Batches | src/pages/Voucher/components/VoucherMapContent.tsx:91-92 | the number of batches is the item count over 5, rounded up |
| VoucherMap.BatchesStep | src/pages/Voucher/components/VoucherMapContent.tsx:91-92 | the loop's batch at i is `slice(i, i + 5)`, then the loop continues at i + 5 |
| VoucherMap.FoundMeaning | src/pages/Voucher/components/VoucherMapContent.tsx:93-122 | a batch result is a voucher of the batch at the coordinates the service answered |
| VoucherMap.Found | src/pages/Voucher/components/VoucherMapContent.tsx:93-122 | never more results than the batch; each at the coordinates the service gave for its address |
| VoucherMap.CacheWriteMeaning | src/pages/Voucher/components/VoucherMapContent.tsx:104-117 | the cache is written only for answered addresses, with the answer |
| VoucherMap.CacheWrite | src/pages/Voucher/components/VoucherMapContent.tsx:104-117 | no cached address is lost |
| VoucherMap.NewItems | src/pages/Voucher/components/VoucherMapContent.tsx:133-135 | keeps exactly the results whose id is not plotted yet |
| VoucherMap.Merge | src/pages/Voucher/components/VoucherMapContent.tsx:132-137 | the previous list stays at the front, and only previous or new results appear |
| VoucherMap.MergeIds | src/pages/Voucher/components/VoucherMapContent.tsx:132-137 | a merge plots the union of the ids |
| VoucherMap.MergeIdempotent | src/pages/Voucher/components/VoucherMapContent.tsx:132-137 | merging the same results again adds nothing |
| VoucherMap.RunKeepsPrefix | src/pages/Voucher/components/VoucherMapContent.tsx:91-137 | the list plotted before the loop stays at the front, in order |
| VoucherMap.Run | src/pages/Voucher/components/VoucherMapContent.tsx:91-137 | no cached address is lost over the batches |
| VoucherMap.RunMeaning | src/pages/Voucher/components/VoucherMapContent.tsx:91-137 | the loop adds the located ids of the work list and writes their answers to the cache |
| VoucherMap.PlottedIds | src/pages/Voucher/components/VoucherMapContent.tsx:57-140 | after the pass, an id is plotted exactly when a listed voucher with it passes the filters and its address was cached or answered |
| VoucherMap.PlottedIdsFromParts | src/pages/Voucher/components/VoucherMapContent.tsx:57-140 | the ids of the cached results and of the answered work list are exactly the ids of listed, considered vouchers with a cached or answered address |
| VoucherMap.CacheAfterPass | src/pages/Voucher/components/VoucherMapContent.tsx:57-140 | after the pass, the cache has gained exactly the answered addresses of the work list |
| VoucherMap.CoordinateCache.constructor | src/pages/Voucher/components/VoucherMapContent.tsx:55 | the cache starts empty |
| VoucherMap.CoordinateCache.GeocodeBatch | src/pages/Voucher/components/VoucherMapContent.tsx:93-122 | returns the found results in batch order and writes their answers to the cache |
| VoucherMap.Plotting.constructor | src/pages/Voucher/components/VoucherMapContent.tsx:32-33 | nothing plotted, not loading |
| VoucherMap.Plotting.Geocode | src/pages/Voucher/components/VoucherMapContent.tsx:57-147 | with vouchers and the map SDK, the plot and cache are those of the whole pass; otherwise the plot is cleared; loading ends false |
| VoucherMap.DisplayList | src/pages/Voucher/components/VoucherMapContent.tsx:217 | the first ten items of the sorted plot |
| VoucherMap.Kept | src/pages/Voucher/components/VoucherMapContent.tsx:284-293 | the markers whose voucher is still plotted |
| VoucherMap.Dropped | src/pages/Voucher/components/VoucherMapContent.tsx:284-288 | the markers whose voucher is no longer plotted |
| VoucherMap.ToAdd | src/pages/Voucher/components/VoucherMapContent.tsx:296-297 | the plotted items that have no marker yet |
| VoucherMap.SyncedIds | src/pages/Voucher/components/VoucherMapContent.tsx:281-352 | after the diff, the markers stand for exactly the plotted ids |
| VoucherMap.SplitMarkers | src/pages/Voucher/components/VoucherMapContent.tsx:284-293 | the removal loop keeps exactly the kept markers and removes exactly the dropped ones, each in order |
| VoucherMap.AddMarkers | src/pages/Voucher/components/VoucherMapContent.tsx:296-352 | the adding loop appends one marker per item in order, with consecutive new handles |
| VoucherMap.NewRecordsHandles | src/pages/Voucher/components/VoucherMapContent.tsx:296-352 | new markers carry only handles not given out before |
| VoucherMap.MarkerLayer.constructor | src/pages/Voucher/components/VoucherMapContent.tsx:29 | no markers |
| VoucherMap.MarkerLayer.Sync | src/pages/Voucher/components/VoucherMapContent.tsx:271-362 | with no map or nothing plotted, nothing changes; otherwise the kept markers come first in their order, then one new marker per added item; the dropped ones are removed |
| VoucherMap.MarkerLayer.Unmount | src/pages/Voucher/components/VoucherMapContent.tsx:365-373 | every marker is removed |
| VoucherMap.Clamp | src/pages/Voucher/components/VoucherMapContent.tsx:388-391 | the offset is kept in [0, 400] and unchanged inside it |
| VoucherMap.Snap | src/pages/Voucher/components/VoucherMapContent.tsx:399-403 | below 150 goes to 0, below 375 to 300, otherwise 400 |
| VoucherMap.SnapIdempotent | src/pages/Voucher/components/VoucherMapContent.tsx:399-403 | snapping twice is snapping once |
| VoucherMap.BottomSheet.constructor | src/pages/Voucher/components/VoucherMapContent.tsx:49-52 | the sheet starts at the middle, not dragging |
| VoucherMap.BottomSheet.DragStart | src/pages/Voucher/components/VoucherMapContent.tsx:376-381 | records the touch or cursor position and the offset; dragging starts |
| VoucherMap.BottomSheet.DragMove | src/pages/Voucher/components/VoucherMapContent.tsx:383-393 | the offset follows the touch or cursor, clamped; nothing happens outside a drag |
| VoucherMap.BottomSheet.DragEnd | src/pages/Voucher/components/VoucherMapContent.tsx:395-403 | dragging ends and the offset snaps |
| VoucherMap.BottomSheet.MarkerClicked | src/pages/Voucher/components/VoucherMapContent.tsx:331-333 | selects the voucher and moves the sheet to the middle |
| LikedVouchers.NextPageParam | src/pages/My/components/LikedVouchersContent.tsx:17-19 | no next page after a last page, else number + 1 |
| LikedVouchers.Liked | src/pages/My/components/LikedVouchersContent.tsx:69-73 | only the like fields change: liked, one more like |
| LikedVouchers.Unliked | src/pages/My/components/LikedVouchersContent.tsx:134-144 | an unliked count is never negative |
| LikedVouchers.UnlikeUndoesLike | src/pages/My/components/LikedVouchersContent.tsx:65-75 | unlike after like gives back a non-negative count |
| LikedVouchers.UpdateData | src/pages/My/components/LikedVouchersContent.tsx:52-53 | data is absent afterwards exactly when it was absent before |
| LikedVouchers.UpdateShape | src/pages/My/components/LikedVouchersContent.tsx:65-75 | page count, lengths and paging fields stay; only vouchers with the id change |
| LikedVouchers.LikeEffect | src/pages/My/components/LikedVouchersContent.tsx:65-75 | every copy of the voucher is liked with one more like |
| LikedVouchers.UnlikeEffect | src/pages/My/components/LikedVouchersContent.tsx:134-144 | every copy of the voucher is unliked with max(0, count - 1) likes |
| LikedVouchers.FirstInPageMeaning | src/pages/My/components/LikedVouchersContent.tsx:57 | `find` returns the first voucher of the page with the id |
| LikedVouchers.FirstWithIdMeaning | src/pages/My/components/LikedVouchersContent.tsx:56-62 | the saved original is absent exactly when no page holds the id, and otherwise is the first copy in page order |
| LikedVouchers.FindOriginal | src/pages/My/components/LikedVouchersContent.tsx:56-62 | the scan with early exit finds the first copy |
| LikedVouchers.RollbackUndoes | src/pages/My/components/LikedVouchersContent.tsx:83-98 | rolling back right after an update restores the pages when all copies equalled the original |
| LikedVouchers.LikedList.constructor | src/pages/My/components/LikedVouchersContent.tsx:11-20 | no data, nothing in flight |
| LikedVouchers.LikedList.Begin | src/pages/My/components/LikedVouchersContent.tsx:42-76 | an id in flight changes nothing; otherwise the id joins the set, the first copy is saved and every copy is updated |
| LikedVouchers.LikedList.BeginLike | src/pages/My/components/LikedVouchersContent.tsx:42-76 | the click part of like |
| LikedVouchers.LikedList.BeginUnlike | src/pages/My/components/LikedVouchersContent.tsx:111-145 | the click part of unlike |
| LikedVouchers.LikedList.Finish | src/pages/My/components/LikedVouchersContent.tsx:78-107 | on failure every copy is restored to the saved original (nothing if none); the id leaves the set on every path; a toast is returned exactly on failure, the like-failure text for a like and the unlike-failure text for an unlike (:100, :169) |
| RecommendationHistory.BuildLikeCntMap | src/pages/Home/components/RecommendationHistoryContent.tsx:44-49 | the loop builds the specified count map |
| RecommendationHistory.LikeCntMapMeaning | src/pages/Home/components/RecommendationHistoryContent.tsx:44-49 | an id has a count exactly when some entry with it has one, and the last such entry's count wins |
| RecommendationHistory.EnrichRecs | src/pages/Home/components/RecommendationHistoryContent.tsx:52-64 | the recommendation list keeps its length |
| RecommendationHistory.EnrichMeaning | src/pages/Home/components/RecommendationHistoryContent.tsx:39-64 | liked exactly when the id is liked; the count is the voucher's own, else the liked list's, else 0 |
| RecommendationHistory.VoucherDataAfterLoad | src/pages/Home/components/RecommendationHistoryContent.tsx:36-74 | enriched for a signed-in member whose liked list loaded, unenriched otherwise |
| RecommendationHistory.Bumped | src/pages/Home/components/RecommendationHistoryContent.tsx:118-124 | only the like fields change: liked, with the count plus one, a missing or zero count giving 1 |
| RecommendationHistory.Dropped | src/pages/Home/components/RecommendationHistoryContent.tsx:190-197 | a dropped count is present and never negative |
| RecommendationHistory.DropUndoesBump | src/pages/Home/components/RecommendationHistoryContent.tsx:112-127 | drop after bump gives back a present, non-negative count |
| RecommendationHistory.BumpUndoesDrop | src/pages/Home/components/RecommendationHistoryContent.tsx:186-201 | bump after drop gives back a present count of at least one |
| RecommendationHistory.UpdateData | src/pages/Home/components/RecommendationHistoryContent.tsx:112-127 | data that is not a list stays absent, and a list keeps its length |
| RecommendationHistory.UpdateMeaning | src/pages/Home/components/RecommendationHistoryContent.tsx:112-127 | an update touches exactly the vouchers with the id, wherever they are listed |
| RecommendationHistory.FailedRequestsMoveCount | src/pages/Home/components/RecommendationHistoryContent.tsx:132-152 | as written, a failed like takes a like away and a failed unlike adds one |
| RecommendationHistory.SettleLike | src/pages/Home/components/RecommendationHistoryContent.tsx:102-152 | as written: a conflict or success settles as intended; a failure drops the voucher |
| RecommendationHistory.SettleUnlike | src/pages/Home/components/RecommendationHistoryContent.tsx:176-225 | as written: a conflict or success settles as intended; a failure bumps the voucher |
| RecommendationHistory.SettleLikeIntended | src/pages/Home/components/RecommendationHistoryContent.tsx:103-152 | a conflict or failure leaves the data; success bumps the voucher |
| RecommendationHistory.SettleUnlikeIntended | src/pages/Home/components/RecommendationHistoryContent.tsx:177-225 | a conflict or failure leaves the data; success drops the voucher |
| RecommendationHistory.IntendedLikeThenUnlike | src/pages/Home/components/RecommendationHistoryContent.tsx:112-201 | a successful like then unlike gives back every present, non-negative count |
| RecommendationHistory.MoodTags | src/pages/Home/components/RecommendationHistoryContent.tsx:328-333 | one tag per comma-separated piece |
| RecommendationHistory.MoodTagsRoundTrip | src/pages/Home/components/RecommendationHistoryContent.tsx:328-333 | tags joined by commas come back as written |
| RecommendationHistory.VideoCount | src/pages/Home/components/RecommendationHistoryContent.tsx:457-466 | the sum of the three list lengths, a missing list counting 0; shown exactly when positive |
| RecommendationHistory.History.constructor | src/pages/Home/components/RecommendationHistoryContent.tsx:18-21 | no data, not loading, nothing in flight |
| RecommendationHistory.History.Load | src/pages/Home/components/RecommendationHistoryContent.tsx:26-86 | stores the enriched or unenriched data and the workouts, nothing on failure; loading ends; the history-failure toast is returned exactly when the history requests fail (:79) |
| RecommendationHistory.History.Begin | src/pages/Home/components/RecommendationHistoryContent.tsx:90-95 | started exactly when the id was not in flight; afterwards it is in the set and the data is unchanged |
| RecommendationHistory.History.FinishLike | src/pages/Home/components/RecommendationHistoryContent.tsx:96-159 | the data follows the as-written like settle; the id leaves the set on every path; the like-failure toast is returned exactly when the request fails, not on a 409 (:134) |
| RecommendationHistory.History.FinishUnlike | src/pages/Home/components/RecommendationHistoryContent.tsx:170-232 | the data follows the as-written unlike settle; the id leaves the set; the unlike-failure toast is returned exactly when the request fails, not on a 409 (:207) |
| MediaUpload.UploadUrlOutsideDev | src/utils/mediaUpload.ts:5-8 | outside development the URL is unchanged |
| MediaUpload.UploadUrlOnHost | src/utils/mediaUpload.ts:5-8 | in development the storage host is replaced by the proxy path, keeping path and query |
| MediaUpload.UploadUrlOffHost | src/utils/mediaUpload.ts:5-8 | in development a URL without the storage host is unchanged |
| MediaUpload.UploadUrl | src/utils/mediaUpload.ts:5-8 | in development the URL is unchanged or has one host occurrence replaced, changing the length by the difference |
| MediaUpload.ContentType | src/utils/mediaUpload.ts:14 | the file's type, or the octet-stream default; never empty |
| MediaUpload.CleanUrlMeaning | src/utils/mediaUpload.ts:20-22 | the URL before the first '?': a prefix with no '?', the whole URL when there is none |
| MediaUpload.CleanUrlIdempotent | src/utils/mediaUpload.ts:20-22 | cleaning twice is cleaning once |
| MediaUpload.CleanUrl | src/utils/mediaUpload.ts:20-22 | a prefix of the URL with no '?' |
| MediaUpload.Put | src/utils/mediaUpload.ts:4-17 | the request carries the file and a non-empty content type, the file's own when it has one; outside development it goes to the presigned URL |
| MediaUpload.UploadImageFiles | src/utils/mediaUpload.ts:24-32 | one result and one PUT per file, in file order, each with its presign id and cleaned URL |
| MediaUpload.UploadVideoFile | src/utils/mediaUpload.ts:34-38 | one cleaned result with no '?' and one PUT |
| MediaUpload.UploadDocumentFiles | src/utils/mediaUpload.ts:41-53 | as for images, and each result records the file name |
| MediaHook.LimitMessageNumbers | src/constants/systemMessages.ts:3-4 | the limit and current count are written into the message and read back |
| MediaHook.LimitMessage | src/constants/systemMessages.ts:3-4 | the message starts with its fixed head and ends with its fixed tail |
| MediaHook.RemoveImageMeaning | src/hooks/useMediaUpload.ts:51-53 | removal deletes exactly position i, keeping order; an out-of-range i changes nothing |
| MediaHook.RemoveImageAt | src/hooks/useMediaUpload.ts:51-53 | one entry fewer for an index in range, the same count otherwise |
| MediaHook.Previews | src/hooks/useMediaUpload.ts:56 | each info's URL, same length and order |
| MediaHook.MediaUploader.constructor | src/hooks/useMediaUpload.ts:18-22 | defaults 10 images and video enabled; empty lists |
| MediaHook.MediaUploader.OnImagesUploaded | src/hooks/useMediaUpload.ts:25-36 | a batch over the limit is refused whole with the limit message; otherwise appended in order |
| MediaHook.MediaUploader.OnVideoUploaded | src/hooks/useMediaUpload.ts:42-48 | only with video enabled; the upload replaces the video slot |
| MediaHook.MediaUploader.RemoveImage | src/hooks/useMediaUpload.ts:51-53 | the list becomes the removal's result; the limit is kept |
| MediaHook.MediaUploader.SetImageInfos | src/hooks/useMediaUpload.ts:60 | replaces the list as given, with no limit check |
| MediaHook.MediaUploader.ImagePreviews | src/hooks/useMediaUpload.ts:56 | one preview per image |
| PostForms.CheckEdit | src/pages/Community/components/PostEditModal.tsx:44-59 | empty exactly for blank text, then too short under 10, then too long over 200; accepted exactly for 10 to 200 trimmed characters, carrying the trimmed text |
| PostForms.VerdictMessage | src/pages/Community/components/PostEditModal.tsx:46-59 | an error toast exactly for a refused edit, never empty |
| PostForms.CheckEditAfterTrim | src/pages/Community/components/PostEditModal.tsx:44 | trimming first changes no verdict |
| PostForms.AcceptedContentShape | src/pages/Community/components/PostEditModal.tsx:44-63 | accepted text is 10 to 200 characters with no outer whitespace |
| PostForms.ExistingImages | src/pages/Community/components/PostEditModal.tsx:28-34 | stored URLs become entries with id = position, in order |
| PostForms.ExistingImagesPreview | src/pages/Community/components/PostEditModal.tsx:28-34 | the previews of the imported images are the stored URLs |
| PostForms.PostEditor.constructor | src/pages/Community/components/PostEditModal.tsx:15-24 | the post's text, not submitting, an empty image list limited to 10 |
| PostForms.PostEditor.ImportExisting | src/pages/Community/components/PostEditModal.tsx:27-35 | stored images replace the list; none leaves it |
| PostForms.PostEditor.Close | src/pages/Community/components/PostEditModal.tsx:37-40 | the text goes back to the post's |
| PostForms.PostEditor.Submit | src/pages/Community/components/PostEditModal.tsx:42-72 | a refused text changes nothing; an accepted one is sent trimmed with the images; success resets the text; submitting ends false |
| PostForms.EditStricterThanWrite | src/pages/Community/components/PostWriteModal.tsx:15 | whatever the edit form accepts, the write form accepts |
| PostForms.WriteAccepts | src/pages/Community/components/PostWriteModal.tsx:15 | accepts exactly the text that is not all whitespace |
| PostForms.WriteLooserThanEdit | src/pages/Community/components/PostWriteModal.tsx:15-22 | a one-letter post passes the write form and is too short for the edit form |
| PostForms.PostWriter.constructor | src/pages/Community/components/PostWriteModal.tsx:10-11 | empty text, not submitting |
| PostForms.PostWriter.Submit | src/pages/Community/components/PostWriteModal.tsx:13-31 | blank text changes nothing; other text is sent untrimmed, cleared on success and kept on failure; submitting ends false |
| PostForms.WriteAlert | src/pages/Community/components/PostWriteModal.tsx:15-28 | an alert exactly when the post was not made, never empty |
| AuthForms.HandleSignup | src/pages/SignUp/component/SignUpContent.tsx:16-41 | a request exactly when all fields are filled and the e-mail has '@', with profile image 1; the login route exactly on success |
| AuthForms.SignupMessages | src/pages/SignUp/component/SignUpContent.tsx:19-39 | missing fields come before the e-mail check; failure shows a non-empty server message, else the generic one |
| AuthForms.SignupFailureStays | src/pages/SignUp/component/SignUpContent.tsx:34-39 | a failed sign-up does not navigate and shows an error |
| AuthForms.Destination | src/pages/Login/component/LoginContent.tsx:25-29 | the `continue` parameter when non-empty, else home |
| AuthForms.HandleLogin | src/pages/Login/component/LoginContent.tsx:15-34 | a request exactly when both fields are filled; success navigates, failure shows the error and stays |
| AuthForms.LoginReturnsToPage | src/pages/Login/component/LoginContent.tsx:25-33 | a waiting page is returned to; a failure looks the same whatever the server said |
| AuthForms.SignupThenLogin | src/pages/SignUp/component/SignUpContent.tsx:31-33 | sign-up leads to the log-in route, whose success leads home with no page waiting |
| CharacterSelect.CharacterIds | src/components/CharacterSelectModal.tsx:14-21 | six characters with ids 1 to 6 in order |
| CharacterSelect.PrevIndex | src/components/CharacterSelectModal.tsx:32-34 | 0 goes to the last index, otherwise one back |
| CharacterSelect.NextIndex | src/components/CharacterSelectModal.tsx:36-38 | one forward modulo the item count |
| CharacterSelect.StepsUndo | src/components/CharacterSelectModal.tsx:32-38 | next undoes previous and previous undoes next |
| CharacterSelect.FullCircle | src/components/CharacterSelectModal.tsx:36-38 | as many steps forward as there are items return to the start |
| CharacterSelect.CharacterCarousel.constructor | src/components/CharacterSelectModal.tsx:24 | the index starts at 0 |
| CharacterSelect.CharacterCarousel.Previous | src/components/CharacterSelectModal.tsx:32-34 | the index steps back, staying in range |
| CharacterSelect.CharacterCarousel.Next | src/components/CharacterSelectModal.tsx:36-38 | the index steps forward, staying in range |
| CharacterSelect.CharacterCarousel.JumpTo | src/components/CharacterSelectModal.tsx:122 | a dot sets the index directly |
| CharacterSelect.CharacterCarousel.Select | src/components/CharacterSelectModal.tsx:40-44 | the current item's id only when logged in |
| Faq.Toggle | src/components/FAQModal.tsx:44-46 | the pressed question closes if open, otherwise opens |
| Faq.PressSequence | src/components/FAQModal.tsx:39-46 | from the closed accordion, after any presses only the last pressed question can be open, and it is open exactly when the final run of presses of it is odd |
| Faq.ToggleTwice | src/components/FAQModal.tsx:44-46 | toggling twice restores a closed accordion or the same open question |
| Faq.FaqAccordion.constructor | src/components/FAQModal.tsx:40 | nothing open |
| Faq.FaqAccordion.Press | src/components/FAQModal.tsx:44-46 | the open index becomes the toggle's result |
| ApiConfig.InferBaseUrl | src/utils/apiConfig.ts:5-16 | a non-empty configured URL first; then the production API for a host containing the domain; else "" |
| ApiConfig.ProductionHosts | src/utils/apiConfig.ts:11-12 | any host ending in the production domain reaches the production API |

## Left out

- Text decoding: a read yields decoded text. `TextDecoder`, its streaming mode and UTF-8 are not modelled.
- Text length: JavaScript counts UTF-16 code units. The model counts characters. They differ only for characters outside the Basic Multilingual Plane.
- JSON parsing is a parameter returning `None` on a parse error.
- Network requests: `fetch`, axios and the presign and storage services are not modelled. How a request settled is a parameter.
- react-query is not modelled. This covers caching, `invalidateQueries` and refetching. In the liked-vouchers handlers, a throw from `invalidateQueries` after a successful like is not a separate outcome. It would also run the rollback.
- Async interleaving is not modelled. Each handler runs to completion as a sequence of steps. Some races are therefore outside the model:
  - stale closures over `likingVoucherIds` and `imageInfos`
  - two geocoding passes overlapping
  - state written after unmount
- Delays are not modelled: the fallback's 500 ms, the 300 ms between geocode batches and the chat timers.
- Geolocation, reverse geocoding, the map-refresh button, info windows and the map's click and idle events are not modelled. The marker-click listener's effect on the bottom sheet is kept.
- Distance sort: the haversine distance and the sort that feeds `DisplayList` are floating-point trigonometry. `DisplayList` takes the sorted list as given.
- Coordinates are `real`. A point exactly on a region box's edge may be classified differently with IEEE doubles.
- The chat request's optional coordinates and member id are not checked beyond being carried.
- ChatSession.ChatModal.OnComplete: requires a non-empty list. The source reads the last element's id without a guard, and every path to it has appended the placeholder.
- The chat completion handler mutates `lastMsg.isStreaming` in the previous array's object. The model builds a new list, so the aliasing with the old array is not captured.
- Session ids: the random draws at fixed template positions are taken but unused.
- CharacterSelect.CharacterCarousel.constructor: requires at least one item. With none, the source would index an empty array. Face mode's item list is defined in a module that is not part of this model. The carousel is therefore modelled over any non-empty item list, with the full-mode characters as a constant.
- The file pickers and the `isUploading` flag are not modelled. The pickers' success callbacks are `OnImagesUploaded` and `OnVideoUploaded`. Their error callbacks only show a toast.
- LikedVouchers.Liked: a missing `likeCnt` would give `NaN` in the source. The model's count is always a number.
- VoucherApi.FetchVouchers: a body that fails to parse is a failure of the call. The source returns `response.json()` without awaiting it inside the `try`, so that rejection escapes the fallback.
- Toasts and alerts are returned as values rather than shown. This covers their wording and which one appears; their display is not modelled.
- Page shells, icons and layout are not modelled.
- URL query encoding is not modelled. The query is a list of name and value pairs.
- The map view's page setter does nothing, so its page-reset requests have no effect. This is not modelled further.
- MediaUpload.UploadImageFiles, MediaUpload.UploadVideoFile, MediaUpload.UploadDocumentFiles: every presign and PUT is taken to succeed. In the source, a rejected presign or PUT aborts the loop, and the results gathered so far are lost.

## Findings

| source | as written | input that shows it | evidently intended | confidence | as-written member | corrected member |
|---|---|---|---|---|---|---|
| src/pages/Voucher/components/VoucherContent.tsx:56 | the Gyeonggi region name is returned as '경기도  ' with two trailing spaces | a position at (37.0, 127.0), in the Gyeonggi box and no earlier box | the bare name '경기도', like every other region name, so the area filter matches the vouchers' area | not executed | VoucherBrowse.GyeonggiPadded | VoucherBrowse.DetectLocationIntended |
| src/pages/Voucher/components/VoucherContent.tsx:173-180 | the list view's filter props carry no `page`, `setPage` or `totalPages`, though its props type requires them | changing the area or sport in the list view: `setArea` runs, then `setPage(0)` throws a TypeError; and `totalPages > 1` is `undefined > 1`, so the pager never shows | the parent passes the page, its setter and the page count, so a filter change goes back to page 0 and the pager shows for more than one page | not executed | VoucherBrowse.PagerUnreachableAsWritten | VoucherBrowse.FilterChangeResetsPageIntended |
| src/pages/Home/components/RecommendationHistoryContent.tsx:137-225 | the data is updated only after the server answers, yet a failed like applies the unlike update and a failed unlike applies the like update | voucher 7 with a like count of 5: a failed like shows 4, a failed unlike shows 6 | a failed request leaves the data as it was, since nothing was applied | not executed | RecommendationHistory.FailedRequestsMoveCount | RecommendationHistory.SettleLikeIntended |
