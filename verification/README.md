# Status sharing: a verified model

The repository is a service through which an owner shares encrypted status updates. An owner has
streams of updates and grants recipients a time window on a stream. A worker fans every update out
over the stream's grants, re-encrypts it for each recipient, caches the result and publishes it on the
grant's channel. Recipients also read windows of a stream, and users store files in two tiers.

This project models the parts of that service that carry hard properties, and proves them with Dafny.
`dafny verify dfyconfig.toml` checks everything.

| file | what it models |
|---|---|
| `Entities.dfy` | the stored entities that several modules share, and how a UUID is spelled |
| `Coverage.dfy` | the window check: sort, sweep and lookup, over dense time |
| `Json.dfy` | `JSON.parse` and `JSON.stringify`, the grammar of RFC 8259 |
| `Cache.dfy` | the texts of cache keys, and what a value reads back as after it was stored |
| `Pre.dfy` | payloads and their proxy re-encryption, over an abstract crypto library |
| `Pipeline.dfy` | grants, updates, index, queues, cache, channels and reads as one state machine with interleaving, redelivery and failure at every `await`; its invariant |
| `PipelineResults.dfy` | what the invariant means for publications, the grant index and cached reads |
| `FanOut.dfy` | how many messages a grant gets over whole runs; the fan-out handler cut into steps |
| `Reads.dfy` | reading a window: what the query selects, and how many answers an update gets over whole runs |
| `Requests.dfy` | saving updates and grants: where a request leads if nothing interrupts it, and what every run keeps of it |
| `Worker.dfy` | the worker's two handlers as they run; every way a handler can go is one of the interleavings |
| `StatusTable.dfy` | the update table with tombstones: batch insert and three deletions |
| `Grants.dfy` | creating, modifying and deleting grants; the channel groups that mirror them |
| `GrantRuns.dfy` | the same requests interleaved at every `await`: when `latest` grants stay unique |
| `RangedReader.dfy` | reading a stored object in ranged chunks |
| `Uploads.dfy` | the two tiers of file storage and the promise that extracts a file from a request |
| `Text.dfy`, `Filters.dfy` | query filters compiled to the text of a WHERE, and that text read back as SQL groups it |

Code that the source writes as expressions is modelled by functions; code that updates things step by
step is modelled by methods and classes that are proved against those functions.

What the proofs bring to light about the code:

- The cache reads every string back as JSON. A re-encryption key that happens to be a JSON text (hex
  digits such as `12e4`) comes back as a number; `Cache.StringSurvivesIffNotJson` is exact. Re-encrypted
  payloads are safe, because their hex text starts with `7b`.
- The sweep is complete over dense time only: on a millisecond clock two adjacent grants that leave out
  no millisecond are still rejected.
- A chunk holds one byte more than the chunk size says, and the reader ends in a refused request exactly
  when `chunkSize + 1` divides the length. Every byte has been delivered by then.
- A filter that mixes dotted and undotted keys silently drops its dotted conditions, because the second
  list starts with `where`.
- Filters are printed without escaping. The WHERE means what the filter means iff every key names a column
  and every criterion is clean: no quotes, two bounds in a range, a number where it is printed bare. A
  criterion that holds quotes can regroup the WHERE, and then the forced `owner_id` or `recipient_id` no
  longer limits the answer (`Filters.QuotesRegroupTheWhere`).
- The list of singleton types names `all` grants too, but the query behind it looks for `latest` grants
  only, so a second `all` grant is saved. Two saves for one stream, owner and recipient that overlap may both
  pass the check; if none overlap, whatever else interleaves, there is at most one `latest` grant.
- Deleting a grant looks a stream up by the loaded grant's `stream_id`. A relation that is not loaded makes
  that a lookup without a condition; the channel groups then stay right, whichever stream comes first, iff
  all streams have the type of the grant's own.
- Modifying a window saves a loaded row. If the row is deleted between the read and the write, the save
  inserts it again and the grant is indexed a second time; without such a deletion it never is.
- The grant index is never cleaned: a deleted grant goes on receiving later updates.
- The database compares UUIDs, while the code compares their texts. A grant whose `stream_id` was sent in
  upper case is committed but no update of its stream reaches it; one whose `recipient_id` was sent so joins
  the group of that other spelling; a batch deletion reports an upper-case id as not found although
  its row dies.
- `delete` of a file passes the user on, but the repository ignores it, so the row is looked up by id alone.
- If the object of a lockbox file is deleted and its row then not saved or not deleted, the file is lost until it is
  written again; that is the only way.

## Model

| member | source | states |
|---|---|---|
| Entities.SameIdIff | src/products/entity/grant.entity.ts:17-21 | two texts are the same UUID to the database iff they agree letter by letter but for case |
| Coverage.SortByFromSorts | src/products/services/grant.service.ts:165 | the sort orders grants by start and is a permutation |
| Coverage.SortByFromIsStable | src/products/services/grant.service.ts:165 | grants that start together are swept in the order the table gave them |
| Coverage.FurthestEndIsMaximum | src/products/services/grant.service.ts:182-186 | the running end is the latest end seen so far, and some grant has it |
| Coverage.CheckContinuousRange | src/products/services/grant.service.ts:164-200 | the loop returns or throws exactly as the gaps, the first start and the furthest end of the sorted list say |
| Coverage.GapUncovers | src/products/services/grant.service.ts:176-180 | a rejection for a gap points at an instant of the window that no grant contains |
| Coverage.SweepIsCoverage | src/products/services/grant.service.ts:164-200 | for overlapping grants in any order, inverted and duplicate ones included, the sweep accepts iff every instant of the window lies in some grant |
| Coverage.WindowCheckIsExact | src/products/services/grant.service.ts:164-215 | from the table: acceptance iff every instant is granted to this recipient on this stream; an inverted window passes iff some row spans it |
| Coverage.InvertedWindow | src/products/services/grant.service.ts:164-215 | for an inverted window only an empty list is rejected |
| Coverage.MillisecondsAreNotEnough | src/products/services/grant.service.ts:176-180 | a concrete pair of adjacent grants that covers every millisecond and is rejected |
| Coverage.MillisecondCheckIsExact | src/products/services/grant.service.ts:164-215 | on a millisecond clock acceptance means: both ends are covered, and every millisecond of the window lies in one grant together with the next |
| Coverage.FindAt | src/products/services/status.service.ts:73-75 | the lookup gives the first grant that contains the instant, and nothing only if none does |
| Coverage.AcceptedWindowsMakeLookupTotal | src/products/services/status.service.ts:48-76 | after an accepted window the lookup for any selected update finds a grant that contains its instant |
| Json.ParseUndoesStringify | src/products/util/pre.ts:7-13 | parsing a printed value gives that value back |
| Json.ParsedIsPrintable | src/products/util/pre.ts:11-20 | whatever was parsed can be printed and parsed again |
| Json.ReprintIsStable | src/products/util/pre.ts:15-21 | printing what was parsed and parsing it again changes nothing |
| Cache.KeysAreDistinct | src/products/services/cache.service.ts:15-25 | the three key builders are injective on colon-free ids and their images are disjoint |
| Cache.StringSurvivesIffNotJson | src/products/services/cache.service.ts:37-59 | a stored string reads back as itself iff it is not a JSON text |
| Cache.ObjectSurvives | src/products/services/cache.service.ts:27-35 | a stored object reads back whole |
| Cache.NumericKeyIsLost | src/products/services/cache.service.ts:37-59 | a concrete hex key that reads back as a number |
| Cache.UnhexUndoesHex | src/products/util/pre.ts:7-13 | hexToBytes undoes bytesToHex |
| Cache.HexOfObjectIsNotJson | src/products/util/pre.ts:7-9 | the hex text of a serialized object is never a JSON text |
| Pre.ParseUndoesPrint | src/products/util/pre.ts:7-13 | parse undoes stringify through hex, bytes and JSON |
| Pre.WithPartReplacesOne | src/products/util/pre.ts:18 | assigning the lockbox changes that member and no other |
| Pre.ReEncryptedParts | src/products/util/pre.ts:15-21 | a re-encrypted payload parses to the same object with the lockbox re-encrypted |
| Pre.ReEncryptionKeepsThePlaintext | src/products/util/pre.ts:15-43 | under a correct key re-encryption succeeds and the recipient decrypts the owner's plaintext |
| Pre.ReEncryptedPayloadSurvivesCache | src/products/services/cache.service.ts:37-59 | `get` after `set` gives a re-encrypted payload back unchanged, and it counts as a hit |
| Pipeline.CreateStreamKeepsInv | src/products/services/stream.service.ts:22-48 | a new stream keeps the invariant |
| Pipeline.InsertGrantKeepsInv | src/products/services/grant.service.ts:89-103 | starting the insert of a grant, with its ids as they were sent, keeps the invariant |
| Pipeline.IndexGrantKeepsInv | src/products/subscribers/grant.subscriber.ts:31-35 | adding the entity to the set of the stream id it carries keeps the invariant |
| Pipeline.KeyGrantKeepsInv | src/products/subscribers/grant.subscriber.ts:36 | caching the grant's key keeps the invariant |
| Pipeline.CommitGrantKeepsInv | src/products/subscribers/grant.subscriber.ts:29-50 | committing after the subscriber has returned keeps the invariant, so committed grants are indexed and keyed |
| Pipeline.LoadRangeKeepsInv | src/products/services/grant.service.ts:150-157 | loading a grant for another window keeps the invariant, whether or not its stream id is loaded |
| Pipeline.WriteRangeKeepsInv | src/products/services/grant.service.ts:159 | saving it keeps the invariant, as a change of the row or, if that is gone, as an insert |
| Pipeline.BeginDeleteKeepsInv | src/products/services/grant.service.ts:122-129 | a deletion that has loaded its grant keeps the invariant |
| Pipeline.DropRowKeepsInv | src/products/services/grant.service.ts:131-143 | deleting the row, if it is still there, keeps the invariant |
| Pipeline.InsertUpdateKeepsInv | src/products/services/status.service.ts:137-144 | inserting an update keeps the invariant |
| Pipeline.QueueUpdateKeepsInv | src/products/services/subscribers.service.ts:37-48 | queueing an update for the worker keeps the invariant |
| Pipeline.DeleteUpdateKeepsInv | src/products/services/status.service.ts:186-194 | turning an update into a tombstone keeps the invariant |
| Pipeline.DeliverUpdateKeepsInv | worker/src/subscribers/grant.subscriber.ts:21-23 | delivering an update, any number of times, keeps the invariant |
| Pipeline.ReadIndexKeepsInv | worker/src/subscribers/grant.subscriber.ts:26-34 | reading the index starts processes that carry this update and a grant of its stream |
| Pipeline.ReadKeyKeepsInv | worker/src/subscribers/grant.subscriber.ts:36-43 | the key read for a grant is that grant's own |
| Pipeline.SendTaskKeepsInv | worker/src/subscribers/grant.subscriber.ts:45-50 | a message sent to the second queue names one grant with its recipient and key |
| Pipeline.DeliverTaskKeepsInv | worker/src/subscribers/pre.subscriber.ts:17-19 | delivering such a message, any number of times, keeps the invariant |
| Pipeline.FindListenerKeepsInv | worker/src/subscribers/pre.subscriber.ts:20-26 | the listener check keeps the invariant |
| Pipeline.StorePayloadKeepsInv | worker/src/subscribers/pre.subscriber.ts:28-33 | what the worker caches is the update's original payload re-encrypted with the grant's key |
| Pipeline.PublishKeepsInv | worker/src/subscribers/pre.subscriber.ts:35-41 | what the worker publishes is right |
| Pipeline.CheckWindowKeepsInv | src/products/services/status.service.ts:49-51 | a passed window check keeps the invariant |
| Pipeline.SelectUpdatesKeepsInv | src/products/services/status.service.ts:53-67 | every update selected after the check has a grant to be looked up |
| Pipeline.LookUpPayloadKeepsInv | src/products/services/status.service.ts:68-79 | a hit, or a computed payload, is a right one |
| Pipeline.StoreComputedKeepsInv | src/products/services/status.service.ts:79-86 | what a read caches and returns is a right payload |
| Pipeline.FailKeepsInv | worker/src/subscribers/grant.subscriber.ts:51-58 | any process may die at any `await` |
| Pipeline.StepKeepsInv | worker/src/subscribers/pre.subscriber.ts:18-47 | every step of the protocol keeps the invariant |
| Pipeline.RunKeepsInv | worker/src/subscribers/pre.subscriber.ts:18-47 | so does every run |
| Pipeline.ReachableInv | worker/src/subscribers/grant.subscriber.ts:22-59 | every reachable state satisfies the invariant |
| PipelineResults.EveryPublicationIsRight | worker/src/subscribers/pre.subscriber.ts:18-47 | every message published for a grant is about an update of the grant's stream, names its recipient and carries that update's original payload re-encrypted with the grant's key |
| PipelineResults.EveryCommittedGrantIsIndexed | src/products/subscribers/grant.subscriber.ts:29-36 | every committed grant is in the set of the stream id it was sent with, and its cached key is its own; anything else the index holds for its id is a row that was inserted again |
| PipelineResults.EveryRowIsCommitted | src/products/services/grant.service.ts:145-162 | modifying and deleting leave only committed grants in the table |
| PipelineResults.IndexRecordsTheRun | src/products/subscribers/grant.subscriber.ts:35 | the index holds exactly what the steps of the run added to it |
| PipelineResults.IndexedOnceIff | src/products/services/grant.service.ts:145-162 | after any run a committed grant is indexed once iff no row of its id was inserted again |
| PipelineResults.WindowChangeWithoutDeletion | src/products/services/grant.service.ts:145-162 | if no deletion of the id falls between read and write, the write changes the window and nothing else |
| PipelineResults.DeletionBetweenInsertsAgain | src/products/services/grant.service.ts:145-162 | if one does, there is a run, given step by step, after which the id is indexed twice |
| PipelineResults.ReachedIffSentCanonically | src/products/subscribers/grant.subscriber.ts:31-35 | the set that updates of the stream name holds a committed grant that is indexed once iff its stream id was sent in canonical spelling |
| FanOut.FanOutIsConserved | worker/src/subscribers/grant.subscriber.ts:22-59 | over every run, messages sent to a committed grant plus those in flight plus failures grow by the number of times the index was read for the update; its row may be deleted meanwhile |
| FanOut.FanOutReachesEveryCommittedGrant | worker/src/subscribers/grant.subscriber.ts:34-54 | a run without failures and with nothing left in flight has sent each committed grant that is indexed once, and whose key is neither empty nor a JSON text, exactly one message with that key per reading of the index |
| FanOut.PlainKeyPasses | worker/src/subscribers/grant.subscriber.ts:40-43 | a key that is no JSON text is read back as itself and passes the check iff it is not empty |
| FanOut.FanOutStartsOneProcessPerCommittedGrant | worker/src/subscribers/grant.subscriber.ts:26-43 | reading the index leaves one process for each committed grant, which reads that grant's key |
| FanOut.LoopIsARun | worker/src/subscribers/grant.subscriber.ts:34-54 | the loop over the members, failures included, is a run that sends exactly what the loop sends |
| FanOut.HandlerLoopIsARun | worker/src/subscribers/grant.subscriber.ts:22-59 | so is the whole handler, from the delivery and the reading of the index in any order |
| FanOut.EachEntryIsSentOnce | worker/src/subscribers/grant.subscriber.ts:34-54 | over distinct members an entry with a key is sent its message once |
| FanOut.NothingIsSentTo | worker/src/subscribers/grant.subscriber.ts:40-43 | a grant whose key reads as nothing is sent nothing |
| PipelineResults.CachedReadRefinesDirectRead | src/products/services/status.service.ts:67-87 | whatever a read returned decrypts for the recipient to the same plaintext as direct re-encryption |
| PipelineResults.EveryCachedPayloadIsReadable | src/products/services/status.service.ts:68-82 | so does everything in the cache, whether a read or the worker stored it |
| PipelineResults.ReadsOfLiveUpdatesCompute | src/products/services/status.service.ts:72-81 | on a miss, a live update always finds its grant and re-encrypts to the right plaintext |
| Reads.SelectionIsExact | src/products/services/status.service.ts:53-67 | after the query the processes are those before, without the check, and exactly one for each row of the stream recorded in the closed window, with that row and the grants found |
| Reads.ReadsAreConserved | src/products/services/status.service.ts:48-88 | over every run, the answers a recipient got for an update plus the processes on their way to one plus those that failed grow by the number of queries whose window holds the update |
| Reads.AnswersOverALife | src/products/services/status.service.ts:48-88 | over the whole life of an update that is still readable, a recipient got one answer per query whose window held it, but for processes that failed or are not done |
| Reads.WholeRead | src/products/services/status.service.ts:48-88 | after the check and the query of a granted window, whatever interleaves: an update none of whose processes failed or is left was answered exactly once if its row was in the window and not at all otherwise, and the answer decrypts to the row's plaintext |
| Reads.AnswersAreRight | src/products/services/status.service.ts:67-87 | every answer ever given for an update decrypts to the plaintext of its row, deleted since or not |
| Reads.UninterruptedRead | src/products/services/status.service.ts:48-88 | a read that nothing interrupts is a run, in whichever order the rows are listed: one answer per row of the window, in that order, each right, and nothing left behind |
| Reads.LiveThroughout | src/products/services/status.service.ts:182-194 | a row that is live at the end of a run was so, unchanged, since it was there |
| Requests.SavedUpdateIsQueued | src/products/subscribers/update.subscriber.ts:22-25 | inserting an update and then queueing it leaves the live row, written out, and the update in the worker's queue |
| Requests.SavedUpdatesReachTheQueue | src/products/services/subscribers.service.ts:37-48 | over every run, an update whose saving began is in the worker's queue for good, unless its process failed or is not done |
| Requests.SavedGrantIsIndexed | src/products/services/grant.service.ts:89-103 | a save of a grant that nothing interrupts leaves its row, its entity in the set of the stream id it was sent with, and its key, all written out |
| Requests.EveryWindowWasAskedFor | src/products/services/grant.service.ts:145-162 | after any run every row has the window of one request: the one that saved the grant or one that changed its window |
| Worker.HandleStatusUpdateEvent | worker/src/subscribers/grant.subscriber.ts:22-59 | the handler sends the messages that the specification lists for the members, in order, skipping failed and keyless ones |
| Worker.FanOutOfReachableState | worker/src/subscribers/grant.subscriber.ts:22-59 | run on any reachable state, the handler sends what a run of the protocol sends; without failures each committed grant of the stream that is indexed once gets exactly one message with its recipient and key if the key is neither empty nor a JSON text, and none if it is empty |
| Worker.PreSubscriber.HandlePREEvent | worker/src/subscribers/pre.subscriber.ts:17-47 | with a listening recipient, a payload that can be re-encrypted and no failure, exactly one cache entry is written and one message published, both written out; otherwise cache and channel stay as they were, but that a payload is cached before a publication fails |
| Worker.HandlerIsARun | worker/src/subscribers/pre.subscriber.ts:17-47 | whichever way the handler goes, early returns and failures included, its result is where its steps lead in the protocol |
| StatusTable.BatchInsert | src/products/services/status.service.ts:133-161 | one answer per item in order, "already exists" iff the key was there or occurs earlier in the batch; the table is the old one plus first occurrences, each with its item's payload, instant and marker, not deleted |
| StatusTable.OneMessagePerNewRow | src/products/subscribers/update.subscriber.ts:22-25 | the worker is sent one message per new row, in batch order |
| StatusTable.TableAndQueueAgree | src/products/services/subscribers.service.ts:37-48 | each message of a batch names a row of the table with the same payload and instant, and carries the id, user and stream that its item was sent with |
| StatusTable.ApplyKeepsSound | src/products/services/status.service.ts:107-256 | every operation keeps "deleted iff no payload" and "rows belong to their stream's owner", and rows only ever die |
| StatusTable.ForeignRowsStay | src/products/services/status.service.ts:170-180 | an operation leaves every row alone whose stream is not the caller's |
| StatusTable.ForeignRunsLeaveRowsAlone | src/products/services/status.service.ts:170-180 | so does every run of operations of callers who do not own the stream |
| StatusTable.RunKeepsSound | src/products/services/status.service.ts:107-256 | so does every run |
| StatusTable.ReachableTablesAreSound | src/products/entity/update.entity.ts:10-20 | in every reachable table deleted iff null payload, and (id, stream_id) names at most one row |
| StatusTable.TombstonesAreFinal | src/products/services/status.service.ts:150-154 | a deleted row stays as it is in every continuation, and saving its key again says "already exists" |
| StatusTable.BatchIsFold | src/products/services/status.service.ts:178-226 | batch delete leaves the table of single deletes in any order |
| StatusTable.ReportsAgreeOnFirstOccurrences | src/products/services/status.service.ts:196-225 | single deletes report the first occurrence of each id that was live; the batch reports every position that was, if it is spelled canonically |
| StatusTable.BatchReportIsTrueIff | src/products/services/status.service.ts:219-225 | a batch tells the truth about a position iff its id is canonical or names no live row |
| StatusTable.BatchIsIdempotent | src/products/services/status.service.ts:199-226 | deleting again changes and reports nothing |
| StatusTable.RangeIsBatch | src/products/services/status.service.ts:228-256 | range delete is batch delete of the stream's live ids recorded in the closed window |
| StatusTable.StatusService.constructor | src/products/services/status.service.ts:107-162 | the empty table is valid |
| StatusTable.StatusService.CreateStream | src/products/services/stream.service.ts:22-48 | a new stream leaves the rows alone |
| StatusTable.StatusService.Save | src/products/services/status.service.ts:107-162 | nothing is inserted if any stream is not the caller's; otherwise answers, rows and messages up to the first failing statement, and all of them if none fails |
| StatusTable.StatusService.SaveOwned | src/products/services/status.service.ts:133-161 | the insert loop against the batch specification |
| StatusTable.StatusService.RemoveStatusUpdate | src/products/services/status.service.ts:178-197 | forbidden iff the stream is not the caller's, and then nothing changes; otherwise the new table, row by row, and "deleted" iff a live row had the id |
| StatusTable.StatusService.RemoveStatusUpdates | src/products/services/status.service.ts:199-226 | forbidden iff the stream is not the caller's; unless it succeeds nothing changes; the new table, row by row, and a report for every position of the request; an empty list is an SQL error |
| StatusTable.StatusService.RemoveStatusUpdatesByDateRange | src/products/services/status.service.ts:228-256 | forbidden iff the stream is not the caller's, and then nothing changes; otherwise the new table, row by row, and one report for each row that died |
| Grants.GroupNamesAreDistinct | src/products/services/subscribers.service.ts:71 | group names are injective for recipient ids of one length |
| Grants.ChannelsAreDistinct | src/products/services/subscribers.service.ts:67 | channel names are injective |
| Grants.AddingMirrorsIff | src/products/services/subscribers.service.ts:67-76 | inserting a grant and adding its channel keep groups and live grants in step iff the recipient was sent as it is stored |
| Grants.RemovingMirrorsIff | src/products/services/subscribers.service.ts:97-119 | deleting a grant keeps them in step iff its channel was taken out of a group of its own stream's type |
| Grants.DeletionKeepsTheMirrorIff | src/products/services/subscribers.service.ts:97-119 | with the stream id loaded it always does; without it, whichever stream is listed first, iff all streams have that type |
| Grants.ModifyingMirrors | src/products/services/grant.service.ts:145-162 | another window keeps them in step |
| Grants.GrantService.constructor | src/products/services/grant.service.ts:26-35 | without grants all invariants hold |
| Grants.GrantService.CreateStreamType | src/products/services/stream_type.service.ts:23-31 | a new stream type keeps all invariants |
| Grants.GrantService.CreateStream | src/products/services/stream.service.ts:22-48 | a new stream keeps all invariants |
| Grants.GrantService.Save | src/products/services/grant.service.ts:45-104 | of a save that nothing interrupts: done iff the scope fits the kind, no latest grant is in the way, the stream is the caller's and of a supported type, and nothing fails; the new row is the request's, written out, and every instant of the requested window is then granted; at most one `latest` grant per stream, owner and recipient; groups stay in step iff the notification does not fail and the recipient is canonical |
| Grants.GrantService.ModifyRange | src/products/services/grant.service.ts:145-162 | only the window of the caller's own range grant changes |
| Grants.GrantService.Delete | src/products/services/grant.service.ts:122-143 | rows, groups and answer; groups stay in step iff the stream that the lookup finds has the type of the grant's own |
| Grants.InsertKeepsLatestUniqueIff | src/products/services/grant.service.ts:51-62 | an insert keeps `latest` grants unique iff nothing stands in its way at that moment |
| GrantRuns.AtMostOneLatestGrant | src/products/services/grant.service.ts:45-104 | in every run from empty tables in which saves of one triple do not overlap there is at most one `latest` grant per triple; in every run each row was well issued and keeps all but its window, unless it was deleted and inserted again without its stream |
| GrantRuns.NonOverlappingRunsKeepLatestUnique | src/products/services/grant.service.ts:51-103 | the same from any safe state, with anything else happening between the awaits |
| GrantRuns.OverlappingSavesMayBothPass | src/products/services/grant.service.ts:51-103 | from any state that accepts both of two competing requests, the run of six steps after which two `latest` grants share a triple |
| GrantRuns.CompletionsKeepLatestUniqueIff | src/products/services/grant.service.ts:51-103 | uniqueness survives every completion of the saves under way iff it holds, nothing stands in their way and no two of them compete |
| GrantRuns.RunsKeepInv | src/products/services/grant.service.ts:89-103 | every run keeps that each row descends from one that its stream's owner issued with a supported type |
| GrantRuns.RowsAreWhatWasRequested | src/products/services/grant.service.ts:89-103 | each grant a run issues was issued by one of its inserts, with the ids, kind, window and key of that request |
| GrantRuns.SaveIsARun | src/products/services/grant.service.ts:65-104 | a save that nothing interrupts is the run of its check, its lookup and its insert |
| GrantRuns.SecondAllGrantIsSaved | src/products/services/grant.service.ts:51-87 | two `all` grants of one triple are saved one after the other, without any overlap |
| RangedReader.RequestsAreRegular | src/products/util/interactive-stream.ts:27-35 | request k starts at k * (c + 1), and there are floor(L / (c + 1)) + 1 of them |
| RangedReader.RequestsAreContiguous | src/products/util/interactive-stream.ts:27-35 | requests are contiguous, do not overlap and end at L |
| RangedReader.ReadFrom | src/products/util/interactive-stream.ts:27-44 | from any position every remaining byte is delivered |
| RangedReader.ReaderIsExact | src/products/util/interactive-stream.ts:27-44 | the bodies concatenate to the whole object, with every request satisfiable iff c + 1 does not divide L |
| RangedReader.OnlyTheLastRequestIsRefused | src/products/util/interactive-stream.ts:27-44 | request k is unsatisfiable iff it is the last one and c + 1 divides L |
| RangedReader.InteractiveS3Stream.constructor | src/products/util/interactive-stream.ts:11-24 | a reader starts at the first byte |
| RangedReader.InteractiveS3Stream.ReadNext | src/products/util/interactive-stream.ts:27-44 | each pull makes the specified request, decreases the measure and refines the whole reading |
| Uploads.ExtractFileFromRequest | src/products/services/upload.service.ts:291-327 | the handlers settle the promise as the event semantics says, for every sequence of events |
| Uploads.SettledForGood | src/products/services/upload.service.ts:291-327 | a settled promise is never changed by later events |
| Uploads.ExtractionIsExact | src/products/services/upload.service.ts:291-327 | data then finish, then anything: resolved with the concatenation iff there was a chunk and the total is at most 2048 bytes, otherwise rejected, for good |
| Uploads.ErrorsRejectForGood | src/products/services/upload.service.ts:291-327 | an error event before any settlement rejects the promise for good |
| Uploads.WriteOne | src/products/services/upload.service.ts:61-86 | writing one file leaves every other file as it was, lost or not |
| Uploads.AddOne | src/products/services/upload.service.ts:92-115 | a new file under a fresh key leaves every other file as it was |
| Uploads.RemoveOne | src/products/services/upload.service.ts:169-173 | removing a file leaves every other file as it was |
| Uploads.UploadService.constructor | src/products/services/upload.service.ts:22-29 | an empty store is sound |
| Uploads.UploadService.Upload | src/products/services/upload.service.ts:89-118 | the store afterwards holds exactly the uploaded bytes under a new row of the user, or what it held before; no other file changes |
| Uploads.UploadService.Place | src/products/services/upload.service.ts:61-83 | the new row, with its tier's fields set and the other tier's cleared, holds the new bytes |
| Uploads.UploadService.Update | src/products/services/upload.service.ts:48-87 | after a success the row is the caller's, with the same key and the requested tier, and holds the last written bytes; the file is lost iff its object was deleted and the row then not saved, until it is written again; after any other failure readers see the new bytes iff the row points at the object that was overwritten, else the old ones |
| Uploads.UploadService.Delete | src/products/services/upload.service.ts:162-175 | row and object are gone; the file is lost iff the object was deleted and the row was not; no other file changes |
| Uploads.UploadService.Get | src/products/services/upload.service.ts:31-46 | only the owner is served, and gets exactly the last written bytes unless the file is lost, without an error iff the row holds them or the chunk size fits the length |
| Uploads.ReadObject | src/products/services/upload.service.ts:177-195 | pulling an object until its stream ends delivers all its bytes, and ends without an error iff the chunk size fits the length |
| Uploads.ServeOthers | src/products/services/upload.service.ts:48-118 | whatever requests about other files come and however they fail, a file stays as it was written |
| Uploads.UpdateThenRead | src/products/services/upload.service.ts:31-87 | a user who has updated a file reads back exactly those bytes, after any further requests about other files |
| Uploads.UploadThenRead | src/products/services/upload.service.ts:31-118 | so does a user who has uploaded one |
| Text.JoinUndoesSplit | src/products/repositories/query.options.ts:88-96 | joining the pieces with the separator restores the criterion |
| Text.SplitUndoesJoin | src/products/repositories/query.options.ts:88-96 | splitting finds exactly the pieces that were joined, if none holds the separator |
| Text.PiecesAreFree | src/products/repositories/query.options.ts:88-96 | no piece of a split holds the separator |
| Text.ConditionQuotes | src/products/repositories/query.options.ts:33-35 | a condition that can be read holds as many quotes as its literals are printed with |
| Text.WhereQuotes | src/products/services/base.service.ts:82-100 | so does a WHERE, however its conditions are grouped |
| Filters.ScalarIsKeptIff | src/products/repositories/query.options.ts:73-79 | a quoted criterion reads back as itself iff it holds no quote |
| Filters.NumberIsKeptIff | src/products/repositories/query.options.ts:79 | a bare criterion reads back as itself iff it is a number |
| Filters.ListIsKeptIff | src/products/repositories/query.options.ts:93-96 | the printed list reads back as the pieces of the criterion iff no piece holds a quote |
| Filters.RangeIsKeptIff | src/products/repositories/query.options.ts:88-91 | a range reads back as exactly its two bounds iff there are two pieces and no quote |
| Filters.CleanReadsBack | src/products/repositories/query.options.ts:51-96 | a clean criterion reads back as what the caller meant, whatever follows it in the WHERE |
| Filters.OperandsAreKeptIffClean | src/products/repositories/query.options.ts:51-86 | for each of the eleven operators the database reads the operands the caller meant iff the criterion is clean |
| Filters.PrintKeepsTheKey | src/products/repositories/query.options.ts:34-35 | the text of a condition is the whole key, the SQL operator and the criteria, whatever fields the key names |
| Filters.BuildFilter | src/products/repositories/query.options.ts:24-48 | the two lists, with one copy of a condition per field of its key; an error iff some operator is not supported, naming the first such entry |
| Filters.SupportedOperators | src/products/repositories/query.options.ts:51-86 | exactly the eleven operators of the API are supported; two print their criterion as it is, and every other puts quotes around it or its pieces |
| Filters.ConditionsAreCompiled | src/products/repositories/query.options.ts:28-42 | a list holds exactly the compiled conditions of the keys of its sort |
| Filters.QueryBuilder.Apply | src/products/services/base.service.ts:85-100 | a non-empty pass replaces whatever an earlier pass left |
| Filters.Query | src/products/services/base.service.ts:66-108 | the WHERE is the undotted list when it is non-empty, else the dotted one |
| Filters.FinalIs | src/products/services/base.service.ts:85-100 | an entry's condition reaches the database iff its key is undotted or all keys are dotted |
| Filters.MeaningIsKeptIffNotMixed | src/products/services/base.service.ts:82-100 | whatever the conditions mean, the WHERE asks for all of them iff the filter does not mix dotted and undotted keys |
| Filters.FinalIsReached | src/products/services/base.service.ts:82-100 | the WHERE is the conditions of the undotted entries in order, one for each field, or of all entries if none is undotted |
| Filters.CleanWhereReads | src/products/services/base.service.ts:82-100 | the printed conditions of clean entries read as the one conjunction they mean |
| Filters.WhereIsKeptIffClean | src/products/repositories/query.options.ts:33-42 | the printed WHERE reads as the conjunction of what its entries mean iff every entry is clean |
| Filters.TableIsRight | src/products/repositories/query.options.ts:51-71 | each SQL operator does what the API operator it is compiled from means |
| Filters.CompiledEntryIsMet | src/products/repositories/query.options.ts:28-35 | a row passes the condition meant by a clean entry iff it meets the entry |
| Filters.CleanWhereMeans | src/products/repositories/query.options.ts:24-48 | the WHERE of clean entries, read as SQL groups it, accepts a row iff the row meets all of them |
| Filters.WhereMeansTheFilter | src/products/repositories/query.options.ts:24-48 | for clean and unmixed filters the WHERE accepts a row iff the row meets every operator and criterion |
| Filters.ForcedReplaces | src/products/controllers/status.controller.ts:118-129 | forcing a key drops what the query says about it and keeps everything else |
| Filters.OnlyTheCallersRows | src/products/controllers/status.controller.ts:118-146 | every accepted row has the caller in the forced column, if the query's other undotted entries are clean |
| Filters.OwnAndReceivedRowsOnly | src/products/controllers/status.controller.ts:118-146 | both lists hold the caller's rows only, with the keys the controllers force, if the query's other undotted entries are clean |
| Filters.CallersRowsThatMeetTheFilter | src/products/controllers/status.controller.ts:118-146 | for clean, undotted filters the answer is the caller's rows that meet the query's other keys |
| Filters.ForcedWhereIsKeptIff | src/products/controllers/status.controller.ts:118-146 | the WHERE of a request reads as the conjunction of what its undotted entries mean iff the query's other undotted entries are clean |
| Filters.QuotesRegroupTheWhere | src/products/repositories/query.options.ts:73-79 | a criterion that holds quotes, and how SQL then groups the WHERE: a row that meets its first part is accepted whoever the caller is |
| Filters.ListGrants | src/products/controllers/status.controller.ts:118-146 | the WHERE of a request, or no query at all when an operator is not supported |

## Left out

- Cryptography: the library is a record of functions; that a key re-encrypts correctly is a hypothesis of the theorems that need it (`Pre.ReEncryptsFor`).
- The clients of TypeORM, Redis, RabbitMQ, PubNub, S3 and busboy: only their effects are modelled. A grant's insert commits after its subscriber has returned, `builder.where` replaces the earlier WHERE, and the insert of updates runs outside a transaction.
- PipelineResults.EveryPublicationIsRight: the key is what the cache reads back; it is the grant's own string iff that is not a JSON text (`Cache.StringSurvivesIffNotJson`).
- PipelineResults.CachedReadRefinesDirectRead: restricted to grants whose keys are plain and correct; a tombstone's read after a miss fails in the source, and after a hit returns the old payload, which is covered.
- Reads.WholeRead: per update. The request itself answers once all of its updates have, and fails as a whole if one does; how its answers are put into one response, and the order by `uploaded_at`, are not modelled. An update that is already deleted when the query runs is not promised an answer.
- Pipeline: the queues hold all messages ever sent, so every message can be redelivered at any time; that a message is eventually delivered is not stated. The channel-group call inside `afterInsert` and in a deletion is modelled in `Grants`, and as a point of failure here. That the three kinds of cache entry do not clash is `Cache.KeysAreDistinct`.
- Pipeline: rows are created one by one and without the checks of `GrantRuns` and `StatusTable`, so its results hold for more runs than the service has. Whether a loaded grant carries its stream id is left open in each step.
- Pipeline.InsertGrantKeepsInv: UUIDs are spelled with hyphens and with letters in either case, which is all that the request validation lets through.
- Coverage.WindowCheckIsExact: instants are exact; the loaded `Date` values drop what a `timestamptz` column holds below a millisecond.
- Json: a lone surrogate written as a \u escape is read as U+FFFD; numbers are kept as their text, so rounding and underflow of numbers are not modelled.
- Grants.GrantService.Delete: whether the loaded grant carries its stream id is a parameter; `DeletionKeepsTheMirrorIff` is exact for both.
- Grants.GrantService.Save: interleavings are in `GrantRuns`, failures of the cache inside the subscriber in `Pipeline`; the subscription calls beside the channel groups are not modelled. The channel groups are stated between operations, not inside them.
- Grants.GrantService.CreateStreamType: stream types are only added; deleting one, and the keystore call of a new stream, are not modelled.
- Grants.GrantService.ModifyRange: of a call that nothing interrupts; interleavings are in `Pipeline` and `GrantRuns`.
- StatusTable.StatusService.RemoveStatusUpdatesByDateRange: the order of the reported rows is the database's own, so it is not stated. The text of comments, `uploaded_at` and `StatusService.delete` are not modelled.
- StatusTable.StatusService.Save: validated requests only, with non-empty payloads and markers that do not send `deleted`.
- Uploads.UploadService.Update: calls do not overlap, and ids are spelled as they are stored. A lockbox request without a file part, which never settles its promise, is not modelled, nor is `deleteMany`. How the row's cleared fields are written back is TypeORM's.
- Uploads.UploadService.Get: objects whose length the chunk size does not fit deliver all their bytes and then an error, as the contract says.
- Text: the reader knows the part of SQL that the compiler prints for clean entries, and OR beside it. A text outside that part, with parentheses, comments or functions, is not given a meaning; the results that say what a WHERE accepts are about clean entries, whose WHERE is always read.
- Filters.Query: the query builder prints its conditions joined by AND and without parentheses of their own.
- Filters.NumberIsKeptIff: bare numbers are unsigned decimals.
- Filters.BuildFilter: `op in mapping` also accepts names that every JavaScript object inherits; criteria that are not strings make the source throw. Neither is modelled, nor are pagination, relations and the integer-like keys that JavaScript enumerates first.
- HTTP controllers other than the two that force a filter key, guards, DTO validation, keystore, channels, messages, products and containers: thin wrappers.
- Logging, push-notification texts, date formatting and polling: no hard property.
