# A verified model of the bootes ingester

Bootes reads the ATProto firehose and repo backfills and writes records and
backlinks to a store. This project models its hard parts in Dafny and proves
what they promise, for every input and every interleaving:

- **The vals store** (`ingest/valsstore.go`): producers push into two buffers
  under one mutex with blocking backpressure; one flusher takes both and drains
  the two zones concurrently in chunks of at most 1000; each chunk has two
  independent retry budgets; the close path accounts for every entry.
- **The ingester's shutdown** (`ingest/ingest.go`): callbacks pass an admission
  gate; shutdown closes the gate, waits for active work, closes each distinct
  sink once and only then saves the cursor. Composed with the store: a saved
  cursor means that everything admitted is durable.
- **The repo pump** (`ingest/ingest.go`): checkpoint and resume over a paged,
  sharded listing through crashes, interrupts and failed writes.
- **The CBOR to JSON transcoder** (`ingest/cbor.go`): one pass over a mutable
  reader with a shared, overwritten string buffer, proved equal to decoding a
  tree and printing it; an RFC 8259 reader gets the intended value back.
- **The partitioned batch writers** (`ingest/backlinks.go`, `ingest/writer.go`):
  buffers as slices over heap arrays, batches cut from them, inserts through a
  semaphore, and a Close that waits for them.
- **Record keys** (`ingest/valsstore.go`): deletes and creates agree, keys are
  distinct, a collection is one range.

## How it is laid out

| file | what it holds |
|---|---|
| `Common.dfy` | bytes, optional values, 64-bit limits |
| `ValsModel.dfy` | one zone: its counters, its drain, what PutBatch may leave behind, the zone invariant |
| `ValsRetry.dfy` | backoff, retry policy, retry state, the chunk loop, as methods |
| `ValsProtocol.dfy` | the store as a transition system, its invariant and preservation |
| `ValsTheorems.dfy` | what the invariant means: order, conservation, wakeups, drain, nil |
| `ValsDrops.dfy` | when a chunk may be given up, counted in a run's outcomes |
| `ValsDeletes.dfy` | when a direct delete lasts against puts admitted before it |
| `ValsLiveness.dfy` | when a shutdown can still return nil |
| `ValsStore.dfy` | the store object, its methods cut at the mutex |
| `IngestProtocol.dfy`, `IngestLiveness.dfy` | ingester and store composed; what decides a shutdown's answer, that a clean one is possible |
| `IngesterClose.dfy` | `CloseContext` as one call over aliasing sinks |
| `RepoPump.dfy` | the repo pump |
| `Utf8.dfy`, `JsonText.dfy`, `Base64.dfy` | runes, the two escapers, base64 |
| `CborTree.dfy`, `CborCanonical.dfy` | the reference decoder to a tree, the encoder it inverts, exactly which bytes decode |
| `JsonPrinter.dfy` | printing a tree, collecting references and the createdAt text |
| `JsonParser.dfy` | the JSON reader, and that it undoes the printer |
| `Transcoder.dfy` | the streaming transcoder, proved to refine decode-then-print |
| `TranscoderTheorems.dfy` | what a caller of the transcoder can rely on |
| `PartitionLedger.dfy`, `PartitionWriters.dfy` | the batch writers, as values and on the heap |
| `InsertDrain.dfy`, `FinalFlush.dfy` | dispatch, bounded inserts, Close; what late writes leave behind |
| `RecordKeys.dfy` | record keys and URIs |

In the state machines a step is one critical section, one channel operation, one
PutBatch or insert outcome, or one move of the environment. `Run` relates states
by any finite sequence of enabled steps, so a statement about `Reachable` states
or about `Run`s covers every interleaving. Histories (`history`, `admittedBy`,
`calls`, `ledger.written`) only record; no step is guarded by one.

Where the code and its comments differ, the model follows the code:

- The transcoder's `createdAt` text is described as the record's `createdAt`. The
  code compares path strings, and an empty path is taken for the root, so a
  `createdAt` under empty keys is taken as well: `EmptyKeyIsTaken` is such a record,
  `CreatedAtTrails` and `CreatedAtIsTopLevel` give the exact conditions.
- `QueueRecordDelete` is called a direct tombstone. A put of the same key that is
  buffered, or in a flush and not decided, can still bring the key back after it:
  `ValsDeletes.DeleteLastsExactly` says exactly when a delete lasts.
- `EnqueueJob` errors are logged and the repo is still counted, so the pump's total
  counts repos handed over.
- `recordKey`'s "one contiguous sorted range" holds for collections without a slash,
  which path splitting guarantees.

## Model

| member | source | states |
|---|---|---|
| `ValsModel.PutAllLocal` | `ingest/valsstore.go:374-383` | A batch put in order decides exactly its own keys: other keys keep their value, its own keys end the same whatever the map held before |
| `ValsModel.ZonePutBatchKeeps` | `ingest/valsstore.go:374-389` | A PutBatch outcome keeps the zone invariant even if a refused call left arbitrary writes under its own keys; which outcomes give the chunk up is `ValsDrops.ChunkGivenUp` |
| `ValsModel.ZoneSettleKeeps` | `ingest/valsstore.go:265-294` | Accounting for a chunk keeps conservation with no uint64 underflow, and keeps the settled prefix in order |
| `ValsModel.ZoneDeleteKeeps` | `ingest/valsstore.go:451-460` | A direct delete affects no key but its own, whatever the drain is doing |
| `ValsRetry.ExponentialBackoff` | `ingest/valsstore.go:357-369` | The loop computes base doubled attempt times, cut at the cap, in int64 arithmetic without wrap; for an odd cap the cut is one below |
| `ValsRetry.BatchRetryPolicy` | `ingest/valsstore.go:330-355` | Busy is always retried, between 3/4 and 5/4 of the capped doubling as the jitter says and never past 30 s; a hard failure is retried exactly while fewer than six were, after 250 ms doubled |
| `ValsRetry.RetryState.Next` | `ingest/valsstore.go:317-326` | A refusal spends one unit of its own budget and leaves the other alone; Busy is always retried, a hard failure while fewer than six were |
| `ValsRetry.FlushChunk` | `ingest/valsstore.go:374-428` | The chunk loop persists or drops exactly when the outcomes say so: first success, seventh hard failure, or the deadline; hard delays before a drop sum to 15.75 s |
| `ValsRetry.BusyIsTransparent` | `ingest/valsstore.go:315-326` | Before shutdown, removing all Busy refusals from a history does not change whether the loop is still trying; Busy alone never ends it |
| `ValsRetry.StopsOnce` | `ingest/valsstore.go:374-428` | A history of outcomes stops the loop at one turn and in one way |
| `ValsStore.AccountAllConserves` | `ingest/valsstore.go:276-294` | Accounting for any chunks moves exactly their entries from in flight to persisted or dropped |
| `ValsStore.ValsStore.PushLocked` | `ingest/valsstore.go:185-211` | push waits exactly at the cap of an open store, refuses exactly when closed, and otherwise appends, counts, and reports the flush size; the other zone is untouched |
| `ValsStore.ValsStore.Push` | `ingest/valsstore.go:185-218` | One pass of push: the entry or the refusal goes to its own zone only, and a token is left exactly if one was there or the flush size was reached |
| `ValsStore.ValsStore.TakeLocked` | `ingest/valsstore.go:236-243` | Both buffers leave together, in flight grows by them, and every waiter is woken once |
| `ValsStore.ValsStore.AccountChunk` | `ingest/valsstore.go:276-294` | One chunk's entries move from in flight to persisted or dropped of its own zone only |
| `ValsStore.ValsStore.FlushBatch` | `ingest/valsstore.go:265-274` | Settles consecutive slices of at most 1000 from the front, each decided by its own outcomes and accounted once; finishes exactly when they are everything |
| `ValsStore.ValsStore.BeginShutdown` | `ingest/valsstore.go:441-448` | The first context is kept and later ones are ignored; the wake channel is closed by the first call only |
| `ValsStore.ValsStore.CloseLocked` | `ingest/valsstore.go:504-514` | The first close marks the store closed, wakes every waiter and tells the flusher; later ones change nothing |
| `ValsStore.ValsStore.CloseVerdict` | `ingest/valsstore.go:516-540` | nil exactly without deadline error, leftover, drop or refusal |
| `ValsProtocol.InvStep` | `ingest/valsstore.go:185-274` | Every step of every producer, the flusher, both drains and shutdown keeps the whole invariant |
| `ValsProtocol.InvRun` | `ingest/valsstore.go:185-540` | Every state of every interleaving satisfies it |
| `ValsTheorems.AdmissionOrder` | `ingest/valsstore.go:185-274` | Per zone: settled chunks, unsettled rest of the flush and buffer are the admission history in order, and each entry comes from a distinct push call of that zone |
| `ValsTheorems.Conservation` | `ingest/valsstore.go:204-294` | Per zone: admitted = persisted + dropped + buffered + in flight in every reachable state, and the in-flight subtraction never underflows |
| `ValsTheorems.MemoryBound` | `ingest/valsstore.go:192-243` | At most 50000 entries buffered and at most 50000 in flight over both zones |
| `ValsTheorems.BatchBound` | `ingest/valsstore.go:265-274` | Every PutBatch carries the first 1000 of the unsettled entries, or all of them if there are fewer |
| `ValsTheorems.ClusterIsReplay` | `ingest/valsstore.go:374-428` | A key not deleted, dropped or in a chunk being tried reads as if the settled entries had been put one by one, whatever refused calls left behind |
| `ValsTheorems.QuietClusterIsReplay` | `ingest/valsstore.go:236-294` | With nothing dropped, deleted or pending, the cluster map equals the admission history put directly |
| `ValsTheorems.WaiterHasLiveFlusher` | `ingest/valsstore.go:192-242` | A waiting producer implies an open store at the cap and, without the ticker, a flusher move or a token about to be sent |
| `ValsTheorems.FullBufferIsAnnounced` | `ingest/valsstore.go:210-217` | At the flush size a token is present, about to be sent, or just received |
| `ValsTheorems.PushOutcome` | `ingest/valsstore.go:185-218` | One pass of push in the protocol: refused exactly when closed, waiting exactly at 50000 of an open store, otherwise appended to its zone and announced from 2000 on; nothing else moves |
| `ValsTheorems.WaitIsBounded` | `ingest/valsstore.go:220-260` | If the cluster accepts, the flusher side makes only a bounded number of moves before the next take |
| `ValsTheorems.BlockedProducerIsWoken` | `ingest/valsstore.go:192-242` | A producer blocked in any reachable state is out of the wait set after a prefix of at most 114 flusher-side moves of any accepting run |
| `ValsTheorems.DrainTerminates` | `ingest/valsstore.go:236-274` | Past the deadline at most one more PutBatch starts per unsettled chunk, whatever the outcomes, and the drain's moves are bounded |
| `ValsTheorems.LateSends` | `ingest/valsstore.go:195-217` | A closed store gets no new token senders: the sends of any late run are at most the producers already sending |
| `ValsTheorems.DrainEnds` | `ingest/valsstore.go:236-274` | Past the deadline, against any cluster: attempts and moves of a prompt run are bounded, no prompt flusher move is left if and only if the flusher has returned, and then nothing is left and every entry is counted as persisted or dropped |
| `ValsTheorems.ClosedFlusherCanMove` | `ingest/valsstore.go:220-260` | Past the deadline a flusher that has not returned can always move, without its ticker and without waiting for a fresh timer |
| `ValsTheorems.RefusedRunPersistsNothing` | `ingest/valsstore.go:374-428` | While every PutBatch is refused the persisted count does not move |
| `ValsTheorems.RefusedDrainDropsTheRest` | `ingest/valsstore.go:236-294` | Against a cluster that refuses everything, the finished drain has counted every leftover entry as dropped |
| `ValsTheorems.CloseFinishedMeansDrained` | `ingest/valsstore.go:504-540` | Once closeFinished is closed nothing is buffered or in flight, and admitted = persisted + dropped |
| `ValsTheorems.NilVerdict` | `ingest/valsstore.go:504-540` | After closeFinished the verdict is nil if and only if no push call was refused and both zones' histories are durable |
| `ValsTheorems.NilIsLasting` | `ingest/valsstore.go:504-540` | After a nil result all that was ever admitted stays durable in every later state |
| `ValsTheorems.ClosedRunAdmitsNothing` | `ingest/valsstore.go:195-203` | A closed store's histories never change again |
| `ValsDrops.ChunkGivenUp` | `ingest/valsstore.go:374-428` | Over every run: a chunk is given up only when its own attempts hold seven hard failures or an installed shutdown deadline has passed, and the seventh does give it up; Busy never counts |
| `ValsDrops.NoDropWithoutCause` | `ingest/valsstore.go:374-428` | From any state with the invariant, a run before the deadline in which no chunk gets seven hard failures leaves the dropped counts alone |
| `ValsDrops.NoDropBeforeSeven` | `ingest/valsstore.go:374-428` | From an empty store such a run has dropped nothing |
| `ValsDrops.WokenAtMostOnce` | `ingest/valsstore.go:396-414` | Closing the wake channel cuts at most one backoff sleep of a zone short, over a whole lifetime; later sleeps listen to the deadline |
| `ValsDeletes.AbsentStays` | `ingest/valsstore.go:374-460` | A key that is absent with no put of it pending stays absent in every run until one is admitted |
| `ValsDeletes.BringBack` | `ingest/valsstore.go:236-294` | From any state with a put of a key pending, some run against an accepting cluster writes it while nothing more is admitted |
| `ValsDeletes.DeleteLastsExactly` | `ingest/valsstore.go:450-460` | After a direct delete the key stays away, until a later put is admitted, in every continuation if and only if no put admitted before is buffered or in a flush and undecided |
| `ValsLiveness.DrainAll` | `ingest/valsstore.go:220-274` | A closed store in which no loss is decided can be drained by the flusher's own moves without any loss |
| `ValsLiveness.NilPossibleExactly` | `ingest/valsstore.go:441-540` | A nil CloseContext is still possible if and only if nothing was dropped or refused and no chunk is given up or woken past the deadline |
| `ValsLiveness.DeadlineCanPass` | `ingest/valsstore.go:441-514` | From every state a shutdown can run into its deadline, admitting nothing more, so that the bounds past the deadline apply |
| `IngestProtocol.QuiescenceIsStable` | `ingest/ingest.go:423-452` | Admission closed and no active work stays so in every continuation |
| `IngestProtocol.StopIsFinal` | `ingest/ingest.go:423-441` | From the first BeginShutdown or CloseContext on, in every run, admission stays closed and nobody becomes active who was not |
| `IngestProtocol.InvStep` | `ingest/ingest.go:770-844` | Every step of callbacks, shutdown, cursor saving and the store keeps the composed invariant |
| `IngestProtocol.SavedCursorMeansDurable` | `ingest/ingest.go:770-844` | End to end, without the periodic saver: if a cursor was stored it is the sequence number of the last commit seen, every entry an admitted callback pushed is in the history and durable, none dropped or refused, and work is quiescent |
| `IngestProtocol.CursorIsLastCommit` | `ingest/ingest.go:500-504` | In every run the cursor is the sequence number of the last commit a callback saw, or the loaded one before any |
| `IngestProtocol.CleanCloseSavesLast` | `ingest/ingest.go:770-844` | With or without the saver: once CloseContext returned nil everything pushed is durable and, if there is a cursor at all, the last commit's is stored |
| `IngestProtocol.NoLaterPush` | `ingest/ingest.go:423-441` | After quiescence the push calls and histories are final |
| `IngestProtocol.ShutdownRefusesNobody` | `ingest/ingest.go:778-797` | The store closes only after quiescence, so no callback's push is ever refused |
| `IngestProtocol.SaverOvertakes` | `ingest/ingest.go:196-201` | A concrete run with the periodic saver in which the stored cursor is ahead of a buffered entry |
| `IngestProtocol.GateIsExact` | `ingest/ingest.go:196-201` | A stored cursor always means durable data if and only if no periodic saver runs |
| `IngestLiveness.CleanShutdownExists` | `ingest/ingest.go:770-844` | With no callback at work and a store in which no loss is decided, some run of the shutdown returns nil with everything durable and the current cursor stored |
| `IngestLiveness.AnswerIsExact` | `ingest/ingest.go:770-844` | In every run, once CloseContext has returned: nil if and only if since it began the backfiller stopped, the wait ended, the drain finished before the deadline, the cursor was saved, and nothing was ever lost |
| `IngesterClose.Ingester.BeginWork` | `ingest/ingest.go:423-431` | Admits and counts exactly while admission is open |
| `IngesterClose.Ingester.BeginShutdown` | `ingest/ingest.go:456-468` | Stops admission first, then notifies the sinks of writer, backlink writer and delete queue in that order, each one once if it listens |
| `IngesterClose.Ingester.ReportUnclosedSinks` | `ingest/ingest.go:470-482` | Reports on the sinks of the three fields in that order, each one once if it reports |
| `IngesterClose.Ingester.CloseSinks` | `ingest/ingest.go:797-830` | Closes the sinks of the three fields in that order, each once; all nil exactly if each field that is set closes with nil |
| `IngesterClose.Ingester.CloseContext` | `ingest/ingest.go:770-844` | By the three fields and the world's answers alone: exactly which notifications, reports, closes and cursor save happen, each once, in which order, and success exactly if quiesced, every sink nil and the cursor saved |
| `IngesterClose.DistinctIsExact` | `ingest/ingest.go:797-803` | The deduplication keeps exactly the sinks that fill a role, each once, however the three roles alias |
| `IngesterClose.PresentIsDistinct` | `ingest/ingest.go:797-803` | Visiting the three fields with a seen set is: the writer, the backlink writer if different, the delete queue if different from both |
| `IngesterClose.ClosesEachSinkOnce` | `ingest/ingest.go:778-830` | Each sink that fills a role is closed once if producers quiesced, and no sink is closed otherwise |
| `IngesterClose.ShutdownIsExact` | `ingest/ingest.go:770-844` | A shutdown's log has each effect that happens once and no other, in strictly increasing places: admission, notifications, backfiller, wait, closes or reports, cursor |
| `IngesterClose.CursorIsSavedLast` | `ingest/ingest.go:832-836` | The cursor is saved exactly when quiesced, every sink returned nil and there is one, and it is the last effect |
| `IngesterClose.ClosesAfterQuiescence` | `ingest/ingest.go:788-830` | No sink is closed before active work was seen to be zero |
| `RepoPump.ShardsPartition` | `ingest/ingest.go:218-228` | The K shards split all DIDs: each is in exactly one |
| `RepoPump.Fnv1aVectors` | `ingest/ingest.go:225-227` | The hash has the published FNV-1a values |
| `RepoPump.RepoPump.PumpPage` | `ingest/ingest.go:314-325` | Exactly the in-shard repos of the page are handed over, in order and each once, and the total grows by their count |
| `RepoPump.RepoPump.Pump` | `ingest/ingest.go:263-359` | One process, however it ends, keeps the checkpoint invariant and leaves a row given by its turns: the page of its last save between pages, the page reached if cancelled with a working write, or completed; an undisturbed run over the rest completes the row |
| `RepoPump.EndsAt` | `ingest/ingest.go:294-359` | The turn a process ends at decides the row it leaves; no other turn can be its last |
| `RepoPump.RepoPump.Lifetime` | `ingest/ingest.go:263-359` | Any number of processes, each ended by a crash, an interrupt, a failed write or completion, keep it |
| `RepoPump.CheckpointMeaning` | `ingest/ingest.go:263-359` | Every in-shard repo before the saved cursor was handed to EnqueueJob, completion means all were, and the saved total is the exact in-shard count despite replays |
| `RepoPump.CompletedShardsCover` | `ingest/ingest.go:218-359` | Once all shards completed, every listed repo was handed out by exactly one of them |
| `Utf8.EncodeDecoded` | `ingest/cbor.go:302-329` | Encoding the rune a valid character decodes to gives back its bytes (RFC 3629) |
| `Utf8.ScalarsRoundTrip` | `ingest/cbor.go:302-329` | Every Unicode scalar value is written as one character that is read back as that value |
| `Utf8.SanitizeIsValid` | `ingest/cbor.go:304` | Rune iteration and re-encoding leaves valid UTF-8 |
| `JsonText.RuneLoopSanitizes` | `ingest/cbor.go:302-359` | The rune loop writes what the byte loop writes for the string with invalid bytes replaced |
| `JsonText.EscapersAgree` | `ingest/cbor.go:302-359` | The two escapers write the same bytes if and only if the string is valid UTF-8 |
| `JsonText.EscapesAre` | `ingest/cbor.go:332-359` | The escapes to the byte: seven short ones, lower-case hexadecimal for other control characters, and no other byte is changed |
| `JsonText.UnescapeUndoes` | `ingest/cbor.go:332-359` | The byte loop's output and a closing quote are one RFC 8259 string that reads back as the original and ends there |
| `JsonText.UnescapeKey` | `ingest/cbor.go:302-329` | The rune loop's output reads back as the sanitized key, the key itself when valid |
| `Base64.RoundTrip` | `ingest/cbor.go:161-169` | A strict decoder recovers every byte string from its base64 text |
| `Base64.Vectors` | `ingest/cbor.go:161-169` | The published examples of RFC 4648 encode as they should |
| `Base64.EncodedIsPlain` | `ingest/cbor.go:161-169` | Base64 text needs no JSON escaping |
| `CborTree.HeadRoundTrip` | `ingest/cbor.go:117` | The head reader inverts shortest-form heads (section 4.2.1 of RFC 8949) for every major type and 64-bit argument |
| `CborTree.HeadBytes` | `ingest/cbor.go:117` | Those heads byte by byte: the argument follows in network byte order in 0, 1, 2, 4 or 8 bytes (section 3 of RFC 8949) |
| `CborTree.DecodeEncoded` | `ingest/cbor.go:116-234` | Decoding inverts encoding for every tree within the limits and stops at its end |
| `CborCanonical.StrictIsEncoded` | `ingest/cbor.go:116-391` | Whatever a reader of shortest heads decodes is, with what it leaves, the encoding of what it returns |
| `CborCanonical.DecodesExactly` | `ingest/cbor.go:116-391` | With shortest heads a byte string decodes to a value if and only if it starts with that value's encoding and the value is within the limits; everything else fails |
| `CborCanonical.LaxAcceptsStrict` | `ingest/cbor.go:116-391` | A reader that allows longer heads returns the same on all of that |
| `CborTree.DecodedIsWellFormed` | `ingest/cbor.go:161-225` | Everything the decoder returns respects the string, collection, key and CID limits |
| `CborTree.DecodeIgnoresSuffix` | `ingest/cbor.go:116-299` | Bytes after a value that decodes change neither the value nor what is left |
| `CborTree.SizeWithinConsumption` | `ingest/cbor.go:116-299` | Visited values never exceed the bytes consumed |
| `CborTree.VisitsAreBounded` | `ingest/cbor.go:116-234` | For every byte string, malformed ones included, at most one value is started per byte and one more; on success no more than the bytes consumed |
| `CborTree.VisitsAreSize` | `ingest/cbor.go:116-234` | On a record that decodes the values started are exactly the nodes of its tree |
| `JsonPrinter.RefsWithinConsumption` | `ingest/cbor.go:152-159` | The total length of collected references never exceeds the bytes consumed |
| `JsonParser.DecimalDigits` | `ingest/cbor.go:123-138` | Decimal text has only digits, no leading zero, and reads back as its number |
| `JsonParser.NumberReadsBack` | `ingest/cbor.go:123-138` | A printed number reads back digit for digit, sign included |
| `JsonParser.ReadPrinted` | `ingest/cbor.go:116-391` | Reading any printed tree gives the intended value: members in order, strings unescaped, integers exact, $bytes and $link objects, and stops at its end |
| `JsonParser.NamesAreKeys` | `ingest/cbor.go:197-201` | An object's names are the map's keys in order if and only if all are valid UTF-8 |
| `JsonParser.KeysSurvive` | `ingest/cbor.go:197-201` | The intended value has the tree's own keys, at every depth, if and only if they are all valid UTF-8 |
| `JsonParser.TextKeepsKeys` | `ingest/cbor.go:116-234` | What a reader gets back is the tree with its own keys if and only if they are all valid UTF-8 |
| `JsonParser.InvalidKeyIsRewritten` | `ingest/cbor.go:304` | The key 0x80 is read back as U+FFFD |
| `Transcoder.ItemsFuse` | `ingest/cbor.go:171-185` | Printing items while reading them is printing the decoded items, including failures, links and createdAt |
| `Transcoder.EntriesFuse` | `ingest/cbor.go:187-213` | The same for entries: key, colon, value under the key's path |
| `Transcoder.ByHead` | `ingest/cbor.go:122-232` | What a value does to reader, output, createdAt and backlinks, case by case of its head |
| `Transcoder.LargestMagnitude` | `ingest/cbor.go:130-131` | The literal the code writes for -1 - (2^64 - 1) is its decimal text |
| `Transcoder.Transcoder.ReadStringToBuffer` | `ingest/cbor.go:250-267` | Succeeds exactly within the limit and the input; the front of the given or a new buffer then holds the next bytes |
| `Transcoder.Transcoder.ReadBytes` | `ingest/cbor.go:270-283` | The same into a buffer of its own |
| `Transcoder.Transcoder.ReadMapKey` | `ingest/cbor.go:286-299` | Reads a text key and copies it out of the shared buffer; any other head fails |
| `Transcoder.Transcoder.WriteJsonString` | `ingest/cbor.go:302-329` | The rune loop appends the quoted, escaped text |
| `Transcoder.Transcoder.WriteJsonStringBytes` | `ingest/cbor.go:332-359` | The byte loop over a slice of the shared buffer appends the quoted, escaped text |
| `Transcoder.Transcoder.WriteNegative` | `ingest/cbor.go:126-138` | The int64, uint64 and literal branches together write -(extra + 1) for every 64-bit extra |
| `Transcoder.Transcoder.WriteCid` | `ingest/cbor.go:362-391` | Does what decoding the byte string as a CID and printing the $link object does, and fails exactly when that fails; `TranscoderTheorems.CidLinkReads` and `BareCidReads` say which bytes are the CID |
| `Transcoder.Transcoder.WriteList` | `ingest/cbor.go:171-185` | The array loop leaves what decoding the items and printing the list leaves, and fails exactly when that fails |
| `Transcoder.Transcoder.WriteMap` | `ingest/cbor.go:187-213` | The map loop likewise, with the shared buffer overwritten by nested keys and values |
| `Transcoder.Transcoder.WriteValue` | `ingest/cbor.go:116-234` | For every input, path and buffer: succeeds exactly when the tree decoder does, and then leaves its rest, its print, its createdAt and its links; in any case it is entered exactly as often as the decoder starts a value |
| `Transcoder.FastCborToJson` | `ingest/cbor.go:53-93` | The whole call equals decode, print, collect; on any failure {} with nothing collected, never a partial result |
| `TranscoderTheorems.OutputReadsBack` | `ingest/cbor.go:53-93` | For every byte string the output is one whole JSON text that reads as the record's value, or as the empty object |
| `TranscoderTheorems.SuffixIgnored` | `ingest/cbor.go:53-93` | Bytes after a record that decodes change nothing in the result |
| `TranscoderTheorems.WorkIsBounded` | `ingest/cbor.go:53-93` | Well formed or not, a record starts at most one value per input byte and one more, no more than the bytes consumed if it decodes, and collects no more reference bytes than input bytes |
| `TranscoderTheorems.ValueSurvives` | `ingest/cbor.go:53-93` | From any value within the limits through CBOR and JSON back to the value, with its references |
| `TranscoderTheorems.BlobSurvives` | `ingest/cbor.go:161-169` | A byte string can be recovered from the $bytes object |
| `TranscoderTheorems.StringLimit` | `ingest/cbor.go:240-283` | A text or byte string is read whole up to 10 MiB and refused beyond, whatever follows |
| `TranscoderTheorems.CollectionLimit` | `ingest/cbor.go:171-191` | An array or map may announce a million items; one more is refused before any is read |
| `TranscoderTheorems.CodeOperands` | `ingest/cbor.go:393-426` | Codes 25, 26 and 27 take 2, 4 and 8 bytes more and fail on fewer; every other code stands alone |
| `TranscoderTheorems.CidLinkReads` | `ingest/cbor.go:362-391` | For every CID after one zero byte the output reads as {"$link": its text}, or is {} if it does not parse: the zero is dropped |
| `TranscoderTheorems.BareCidReads` | `ingest/cbor.go:376-386` | Without a leading zero, or with at most one byte, the payload itself is what must parse |
| `TranscoderTheorems.PathIsSpelled` | `ingest/cbor.go:179-206` | A nested path is the keys joined by dots with [] for items, empty keys at the start left out |
| `TranscoderTheorems.LinksAreReferences` | `ingest/cbor.go:152-159` | Backlinks are exactly the texts that start with did:plc:, did:web: or at://, in byte order, typed by that prefix, each with the spelled path of its place in the tree |
| `TranscoderTheorems.CreatedAtTrails` | `ingest/cbor.go:148-151` | A path reads createdAt if and only if it is that key under nothing or under empty keys; no dotted or bracketed path collides |
| `TranscoderTheorems.CreatedAtIsLast` | `ingest/cbor.go:148-151` | The createdAt text is the last text on such a path |
| `TranscoderTheorems.CollectedFromTexts` | `ingest/cbor.go:53-93` | The result's backlinks and createdAt text, in terms of the record's texts and their places |
| `TranscoderTheorems.CreatedAtIsTopLevel` | `ingest/cbor.go:148-151` | The createdAt text is the record's top-level field if and only if no text under empty keys comes after it or that text is the same |
| `TranscoderTheorems.NoEmptyKeyIsTopLevel` | `ingest/cbor.go:203-206` | A record whose own map has no empty key always gets its top-level createdAt |
| `TranscoderTheorems.EmptyKeyIsTaken` | `ingest/cbor.go:203-206` | The encoded record {"": {"createdAt": t}} gets createdAt t without having a top-level field |
| `PartitionLedger.KeysSeparateMonths` | `ingest/backlinks.go:73-76` | Two backlinks share a partition exactly when they share a month; two records likewise, with everything before 2023 in one |
| `PartitionLedger.CutKeepsTotals` | `ingest/backlinks.go:107-112` | Cutting a batch off a buffer leaves every partition's batches ++ buffer unchanged |
| `PartitionLedger.AllGroupsAdded` | `ingest/backlinks.go:84-113` | Grouping by partition and appending group by group, in any map order, adds exactly the written rows to every partition in order |
| `PartitionLedger.EmptyMeansAllCut` | `ingest/writer.go:180-192` | With the buffers empty each partition's batches in order are its writes in order |
| `PartitionWriters.Append` | `ingest/backlinks.go:104` | append, in place or in a larger copy, gives the old rows followed by the new |
| `PartitionWriters.PartitionWriter.Cut` | `ingest/backlinks.go:107-112` | The first batchSize rows become a batch, the rest moves to an array of its own, and no array is shared |
| `PartitionWriters.PartitionWriter.Take` | `ingest/backlinks.go:191-199` | A non-empty buffer becomes a batch and is replaced by an empty one on a new array; an empty one stays |
| `PartitionWriters.PartitionWriter.GroupRows` | `ingest/backlinks.go:84-89` | The pre-sort keeps each partition's rows in order, loses none, and has a group for exactly the rows' partitions |
| `PartitionWriters.PartitionWriter.Write` | `ingest/backlinks.go:79-114` | Every buffer ends shorter than the batch size, cut batches have exactly that many rows of one partition, batches ++ buffer per partition are the writes in order, every batch handed off earlier still holds its rows, and exactly the rows' partitions get the write's time |
| `PartitionWriters.PartitionWriter.WriteRecord` | `ingest/writer.go:116-136` | The same for one record, whose full buffer leaves whole and whose partition gets its indexing time |
| `PartitionWriters.PartitionWriter.FlushStale` | `ingest/backlinks.go:140-153` | Exactly the non-empty buffers older than the age are taken; the others are untouched |
| `PartitionWriters.AgeIsSinceLastWrite` | `ingest/backlinks.go:105` | Over any sequence of writes and sweeps a buffer's age counts from the last write to its partition |
| `PartitionWriters.SweepIsExact` | `ingest/backlinks.go:140-153` | A sweep takes a buffer's rows exactly if the last write to its partition is longer than the age ago, and otherwise leaves it as it is |
| `PartitionWriters.PartitionWriter.FlushAll` | `ingest/backlinks.go:161-170` | Every buffer is taken, nothing is added or lost |
| `InsertDrain.InsertRecords` | `ingest/writer.go:276-305` | Succeeds exactly if one of twelve attempts would, stops there, and gives up only after 181.5 s of backoff |
| `InsertDrain.InsertDelays` | `ingest/writer.go:276-305` | The twelve delays, in milliseconds: 0, 500 doubled up to 16000, then 30000 |
| `InsertDrain.FateByOutcomes` | `ingest/writer.go:199-305` | In every run a batch is given up after exactly twelve failed attempts of its own and settled as inserted by one success after fewer |
| `InsertDrain.InvStep` | `ingest/writer.go:116-209` | Every step of producers, flush loop, inserts and Close keeps the counters of semaphore and wait group equal to what they stand for |
| `InsertDrain.InsertsAreBounded` | `ingest/writer.go:199-209` | Never more inserts at once than the semaphore's capacity (30 for records, 8 for backlinks) |
| `InsertDrain.WriterLimits` | `ingest/writer.go:66` | At most 30 record inserts and at most 8 backlink inserts run at once |
| `InsertDrain.CloseWaitsForAllButProducers` | `ingest/writer.go:353-359` | When Close returns, every batch is settled if and only if no producer is between cutting a batch and starting its insert |
| `InsertDrain.ClosedMeansSettled` | `ingest/writer.go:353-359` | With producers quiesced first: buffers are empty, every row is in exactly one batch in order, every batch is inserted or given up, non-empty and of one partition |
| `InsertDrain.WritersClosed` | `ingest/backlinks.go:55-66` | After an orderly Close the batches are settled, of at most 50000 records of one partition and of at most 10000 backlinks of one month |
| `InsertDrain.LateWriteIsLost` | `ingest/writer.go:116-141` | A concrete run in which a row written after the final flush is still buffered when Close returns |
| `FinalFlush.LeftOver` | `ingest/writer.go:115-141` | In every run after the final flush a partition's buffer holds exactly what its rows written since leave over after full batches |
| `FinalFlush.EmptyExactly` | `ingest/writer.go:115-141` | The buffers end empty if and only if the rows written since the final flush fill whole batches in every partition |
| `FinalFlush.RowsByBatches` | `ingest/writer.go:199-209` | Every row written is in a settled batch if and only if every batch is settled and every buffer is empty |
| `FinalFlush.CloseIsExact` | `ingest/writer.go:351-359` | When Close returns, every row written is in a settled batch if and only if no producer is between cutting and starting an insert and the rows written since the final flush fill whole batches |
| `FinalFlush.ReturnFollowsFlush` | `ingest/writer.go:143-158` | Every Close that returns has such a final flush behind it |
| `InsertDrain.StepsRunOut` | `ingest/backlinks.go:322-330` | Every step but a write or a sweep brings the writer nearer to closed |
| `InsertDrain.CloseIsNotStuck` | `ingest/backlinks.go:322-330` | A waiting Close always has a step that can go on |
| `RecordKeys.SplitJoins` | `ingest/valsstore.go:155` | Split parts joined are the text, and only the last may hold a slash |
| `RecordKeys.DeleteFindsCreate` | `ingest/ingest.go:531-563` | For every repo without a slash and every path of two parts, the delete's URI gives the key the create wrote |
| `RecordKeys.UriAndKeyBytes` | `ingest/valsstore.go:145-160` | at://d/c/r has the key c/d/r, to the byte |
| `RecordKeys.KeyedUris` | `ingest/valsstore.go:150-160` | A URI has a record key if and only if it is at://repo/collection/rkey |
| `RecordKeys.KeysAreDistinct` | `ingest/valsstore.go:145-147` | Keys are equal exactly when collection, DID and rkey are |
| `RecordKeys.PrefixIsContiguous` | `ingest/valsstore.go:143-147` | In byte order, what lies between two texts with a prefix has it too |
| `RecordKeys.CollectionsAreRanges` | `ingest/valsstore.go:143-147` | Between two keys of a collection there are only keys of that collection |

## Left out

- Network, SQL and client code (`connect.go`, `bootstrap.go`, `bfstore.go`, `schema.sql`, batch preparation and sending, websocket, scheduler): a PutBatch, an insert, a listing page and a checkpoint write are outcomes of the environment.
- `deletes.go`: a simpler copy of the batch writers; its cleanup relies on server clocks and mutation semantics outside the repository.
- `main.go`, metrics, logging, self-labels, pools and the CLI: plumbing.
- The cumulative counters admitted, persisted, dropped and rejected are unbounded naturals; they would wrap after 2^64 entries. The in-flight counters do wrap in the model and are proved not to.
- A PutBatch acts on the cluster when it returns: a refused call may leave any change under its own keys, but a call that timed out does not take effect later, after its chunk was settled.
- Vals deletes go straight to the cluster and are not ordered after buffered puts of the same key, so `ClusterIsReplay` excludes deleted keys; `ValsDeletes` decides when a delete lasts.
- The cursor is whatever the last started commit set; it is neither monotone nor a bound on events that were queued and never started, and no such claim is made.
- Stores that do not implement `ContextCloser` (ClickHouse) get no drain-before-cursor guarantee; `IngestProtocol.SaverOvertakes` shows why.
- Real time: timers, the ticker and deadlines are steps of the environment, expiry is permanent, and delays are integer nanoseconds. The jitter product is over the reals, not float64.
- `IngestProtocol`: the backfiller's `Stop` is one step that answers; that it waits for its own callbacks is not assumed.
- PutBatch and insert calls are assumed to return only where a bound or liveness is stated.
- ValsTheorems.DrainTerminates: a drain sleeping past the deadline is assumed to see the deadline before its freshly armed timer.
- InsertDrain.StepsRunOut: sweeps are excluded, because the flush loop's select may keep choosing its ticker over the closed channel.
- Fairness of the Go scheduler: liveness is stated as enabled steps and as bounds on numbers of moves.
- RepoPump: the listing is fixed and its page tokens are distinct, `EnqueueJob` success is not claimed, and shard counts of 2^32 and more (where the code's uint32 conversion wraps) are not modelled.
- `parseCreatedAt`, TIDs and time parsing: library code and the wall clock. The createdAt text is carried to the result instead of a timestamp.
- Floats: which bytes are read and what is printed around them is modelled; the value and its text come from the environment (`Foreign.float`), as decimal digits or as not finite.
- The CBOR head reader belongs to a library that is not part of this model: `CborTree.ReadHead` follows section 3 of RFC 8949, leaves open whether arguments longer than necessary are refused (`Foreign.strictHeads`), rejects indefinite lengths and reserved forms, and returns the argument rather than the additional information for major type 7.
- The CID library is not part of this model: parsing and printing a CID are `Foreign.cid`, into printable ASCII without quotes and backslashes.
- Recursion depth: the transcoder's recursion is proved to terminate, but Go's stack limit on deeply nested input is not modelled.
- JSON text is read over bytes. Text values pass through byte for byte, so a record with invalid UTF-8 in a text gives JSON that is not valid UTF-8, as in the code.
- `sync.Pool` reuse of the output buffer and the head scratch bytes: each call starts with an empty output.
- PartitionWriters.Append: new capacities follow plain doubling instead of the Go runtime's growth table; the theorems do not depend on them.
- PartitionWriters.PartitionWriter.Write: a partition's buffer is a value in the map where the code keeps a reference, and dispatch after the unlock is a step of `InsertDrain`.
- `BatchWriter` and `BacklinkWriter` share one class: their fields and helper code are the same, and each has its own entry method.
- InsertDrain.InsertRecords: the wait for merges before and between attempts is left out; it ends by its own timeout.
- RecordKeys.DeleteFindsCreate: for repo names with a slash, which no DID has, the keys differ in general and nothing is stated.
- InsertDrain.InvStep: Close reads the wait group at the moment it returns. In Go a waiter released at zero may return a little later, after a late producer has added to the group again; the theorems about the return speak about the moment of zero.
