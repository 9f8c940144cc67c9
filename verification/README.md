# flowplace: a verified model of its store, coordinator, engine, codecs and scenario text

A Dafny model of five connected pieces of flowplace, with machine-checked proofs of what they are for.
`dafny verify dfyconfig.toml` checks all of it.

**The durable store** (`Bytes`, `Crc32c`, `Records`, `Journal`, `Recovery`, `StoreOps`, `Store`). An append-only
journal and an atomically replaced snapshot, modelled down to the bytes. `Store.PlacementStore` is the store as
an object whose indexes and files its methods update; each method is held to a function in `Recovery` or
`StoreOps`. `StoreSafety` and `StoreRuns` let a run do anything: operations, compactions, crashes after any durable
step or part-way through an append, clean stops, reopenings. The *history* of a run is the list of placements
whose append completed. The main results (`StoreGuarantees`, `StoreAcceptance`, `StoreReload`, `StoreReading`,
`StoreBounds`) say that opening refuses or shows exactly the history, that the history is numbered without gaps,
exactly when a compacted or interrupted store opens again, that a store that only appended comes back exactly, and
what an opening with any options at all reads, cuts off and shows.

**The coordinator** (`Reaping`, `Coordinator` and its companions). A state machine: each region of code that runs
under a lock is one step of one thread, and any thread that can take a step may take the next. Slots are told
apart by identity, so an attempt id may name different slots in turn. Commits and attempt records go to the store
modelled above, with its files, or to memory when no store is open. Results, over all interleavings: fencing, final
outcomes, cancellation, journal order, counters and the queue bound; a run of the coordinator is a run of its store,
so a commit it reports survives crashes and reopenings (`CoordinatorDurable`); and exactly which steps report an
attempt with a placement as anything but committed (`CoordinatorHarm`).

**The engine and validator** (`Model`, `Sorting`, `Validation`, `Ranking`, `Exclusions`, `Engine`). The decision
for a request, branch by branch, and the loop that computes it with its exclusion recorder. Results
(`EngineTheorems`, `EngineOrder`): every intent passes the independent verifier, the choice is the best legal
candidate or a kept incumbent, and exactly when the order of what a request lists shows in the decision.

**Codecs and framing** (`Wire`, `Formats`, `RequestCodec`, `DecisionCodec`). Round trips, rejection of prefixes
and extensions, and delivery that does not depend on how bytes are cut into chunks.

**The scenario text** (`ScenarioText`, `Scenario`, `ScenarioParser`, `ScenarioWriter`). Requests as lines of directives
with key and value pairs. `ScenarioParser.ParseScenario` is the loop over lines, held to the grammar in `Scenario`.
Results (`ScenarioArgs`, `ScenarioLines`, `ScenarioTheorems`, `ScenarioExactly`, `ScenarioUnknown`): what any accepted
text denotes, exactly which requests are read back from their rendering, and which lines refuse an unknown key.

Where the code does not keep what one would expect of it, the model keeps the code and the project proves where
the line runs:

- A compaction keeps only the latest placement of a flow but may keep the committed attempt of an earlier one.
  Opening takes that for corruption, whatever the options (`StoreLimits.SupersededCommitStrands`).
  `StoreAcceptance.CompactedReopens` gives the exact condition, `StoreLimits.StrandedExample` a run from no files.
- Between the two renames of a compaction the old journal's marker names the old sequence and is refused, not
  repaired (`StoreAcceptance.BetweenRenames`).
- Nothing keeps a reopening from applying a smaller record bound than the records were written under, and the
  reader narrows the bound to 32 bits where the writer does not. What follows the first record beyond the bound then
  counts as a torn tail (`StoreReading.OpenReadsPrefix`), and an acknowledged placement can be cut off
  (`StoreLimits.SmallerBoundLoses`).
- An attempt reported as cancelled, fenced or failed can have a durable placement. Which steps bring that
  about is characterised by the guards of all the code that finalizes (`CoordinatorHarm.StepPlacedAs`,
  `PlacedAsExactly`); it never happens while a worker or a commit takes up only what nobody drives and neither
  Shutdown nor Await meets a commit in flight (`CoordinatorHarm.PlacedEndsCommitted`), as in every run that uses no
  id and no prepared attempt twice and whose Await is not late (`FreshEndsCommitted`). `CoordinatorLimits` has a run
  for each way out: an id used again after reaping makes Shutdown cancel a commit in flight
  (`CancelledButDurable`) or two workers take one attempt, one of which fences it (`FencedButDurable`); Commit called
  twice does the latter without a reused id (`CommittedTwice`); Await gives up after the stop on a commit that then
  completes (`FailedButDurable`), although the header calls a failed attempt one without durable mutation
  (include/flowplace/runtime.hpp:36). A commit that itself answers an error has written nothing
  (`CoordinatorHarm.FailedCommitPlacesNothing`).
- A decision shows the order of its input when more reasons occur than the recorder has room for, or when the chosen
  path carries two reservations the policy lists, and in no other case (`EngineOrder.OrderShowsExactly`, with an
  input for each).
- The header says that a request is read back from its rendering with every field (include/flowplace/scenario.hpp:30-31).
  It is exactly when the text can express it and every line is within the bound on its length
  (`ScenarioExactly.RoundTripExactly`); a request valid under the default limits need not be
  (`ScenarioLimits.ValidButRefused`).
- The argument parser is to reject unknown keys (src/scenario.cpp:75-77). It does on every directive but two: the flow
  and candidateset directives pass them over (`ScenarioUnknown.UnknownKey`), so the text of a request may carry
  one there (`UnknownKeyAccepted`; `ScenarioLimits.UnknownKeyExample` is one that does).

## Model

| member | source | states |
|---|---|---|
| Bytes.FromLEInvertsLE | src/bytes.cpp:46-74 | A number that fits its width reads back from its little-endian digits. |
| Bytes.LowDigitsBack | src/bytes.cpp:10-25 | A number written at any width, even one too small for it, reads back modulo that width. |
| Bytes.LEInvertsFromLE | src/bytes.cpp:10-25 | Writing a number read from bytes gives those bytes again: no two byte strings of one width denote one number. |
| Bytes.ReadU64sBack | src/bytes.cpp:65-74 | A run of 64-bit fields reads back to itself, whatever follows. |
| Bytes.ReadStringBack | src/bytes.cpp:35-38 | A length-prefixed string within the bound reads back to itself, whatever follows. |
| Bytes.ByteWriter.U64 | src/bytes.cpp:21-25 | The writer appends exactly the eight little-endian digits. |
| Bytes.ByteReader.U64 | src/bytes.cpp:65-74 | The reader consumes eight bytes and answers their value, or fails and consumes nothing. |
| Bytes.ByteReader.String | src/bytes.cpp:90-98 | The reader answers a string no longer than the bound, or fails. |
| Crc32c.BuildTable | src/hash.cpp:12-26 | Every entry of the computed table is eight bit-serial steps of its index. |
| Crc32c.TableStep | src/hash.cpp:38-40 | One table lookup advances the state exactly as feeding the byte bit by bit with the reflected polynomial does. |
| Crc32c.Crc32C.Update | src/hash.cpp:35-42 | Table-driven updating equals the bit-serial definition of CRC-32C (section 12.1 of RFC 3720) for input of any length. |
| Crc32c.Compute | src/hash.cpp:35-42 | The checksum of several pieces fed in turn is the checksum of their concatenation. |
| Crc32c.BurstDetected | src/hash.cpp:35-42 | Changing anything within four consecutive bytes of a message of any length changes its checksum. |
| Wire.EncodeFrame | src/wire.cpp:90-111 | Encodes exactly the frames whose payload is within the bound, to the bytes of the frame layout. |
| Wire.DecodeInvertsEncode | src/wire.cpp:90-142 | Every frame within the bound decodes to itself. |
| Wire.EncodeInvertsDecode | src/wire.cpp:113-142 | Only encodings decode: accepted bytes are those of the frame answered. |
| Wire.DamagedBodyRejected | src/wire.cpp:113-142 | A frame whose body is damaged within four consecutive bytes is refused for its checksum. |
| Wire.FrameStream.Feed | src/wire.cpp:144-150 | Feeding appends to the bytes not yet consumed. |
| Wire.FrameStream.NextUp | src/wire.cpp:152-174 | The stream answers the first whole frame and consumes it, waits when it is incomplete, or reports the error and consumes nothing. |
| Wire.ChunkingIrrelevant | src/wire.cpp:144-174 | However any bytes are cut into chunks, the frames received, the error and the bytes left over are the same. |
| Wire.StreamDelivers | src/wire.cpp:144-174 | For every list of frames and every chunking of their encodings, the stream delivers exactly those frames in order. |
| Records.ReadAttemptBack | src/codec.cpp:823-866 | An attempt record reads back to itself, whatever follows. |
| Records.ReadPlacementBack | src/codec.cpp:868-909 | A placement record reads back to itself with its revalidation mark set, whatever follows. |
| Records.AttemptBytesBack | src/codec.cpp:836-866 | Only encodings decode to attempt records. |
| Records.PlacementBytesBack | src/codec.cpp:882-909 | Only encodings decode to placement records. |
| Records.EncodePlacementRecord | src/codec.cpp:868-880 | The encoder appends exactly the bytes of the record layout. |
| Records.DecodePlacementRecord | src/codec.cpp:882-909 | The decoder accepts exactly what the layout allows and leaves what follows. |
| Records.DecodeAttemptRecord | src/codec.cpp:836-866 | The decoder accepts exactly what the layout allows and leaves what follows. |
| Formats.DecodeExactly | src/codec.cpp:603-753 | For any composed format: an encoding decodes to its value, and every strict prefix and every extension of it is refused. |
| RequestCodec.RequestFitsFormat | src/codec.cpp:146-299 | The encodable requests are exactly those within limits, with enumerations in range, some objective and no optional identity of zero. |
| RequestCodec.EncodingIgnoresLimits | src/codec.cpp:562-601 | The bytes of a request do not depend on the limits. |
| RequestCodec.RequestsRoundTrip | src/codec.cpp:562-753 | A request within the limits decodes to itself; every strict prefix and every extension of its encoding is refused. |
| DecisionCodec.DecisionsRoundTrip | src/codec.cpp:765-821 | A decision within the decode bounds decodes to itself; every strict prefix and every extension of its encoding is refused. |
| ScenarioText.SplitWhitespace | src/scenario.cpp:24-40 | The loop answers exactly the maximal stretches free of blanks, in order. |
| ScenarioText.SplitCommas | src/scenario.cpp:52-74 | The counting loop and the cutting loop answer the parts between the commas, or refuse more than the bound before any part is made. |
| ScenarioText.WordsSpaced | src/scenario.cpp:24-40 | Words written with single spaces between them are the words read. |
| ScenarioText.SplitJoin | src/scenario.cpp:52-74 | Parts free of the separator, joined by it, come back when split at it. |
| ScenarioText.NumberBack | src/scenario.cpp:42-48 | Every 64-bit number is read back from its decimal digits. |
| Scenario.ParseArgs | src/scenario.cpp:84-104 | The loop over a line's tokens collects exactly its pairs; an odd number, more than 64 pairs or a repeated key is refused. |
| ScenarioParser.ParseScenario | src/scenario.cpp:367-658 | The loop over lines, with comments, bounds and once-only directives, answers exactly what the grammar says of the text. |
| ScenarioArgs.ArgsBack | src/scenario.cpp:84-104 | Pairs of distinct keys written on a line are found again under their keys, and nothing else is. |
| ScenarioLines.PolicyBack | src/scenario.cpp:513-576 | A policy within the reader's bounds is read back from the arguments written for it. |
| ScenarioTheorems.RoundTrip | src/scenario.cpp:660-796 | A request the text can express is read back whole when every line and the document keep to their length, and is otherwise refused for its size. |
| ScenarioExactly.AcceptedIsHeld | src/scenario.cpp:367-658 | Whatever text is accepted, the request it denotes has its names in range, its lists within bounds, some objective, no optional identity of zero, and phrases of one word. |
| ScenarioExactly.RoundTripExactly | src/scenario.cpp:660-796 | A request is read back unchanged from what is written exactly when its lists, names, phrases and time can be expressed and its lines and document keep to their length. |
| ScenarioExactly.ExpressedRead | src/scenario.cpp:762-794 | A request within the reader's bounds is read back with a dash for an empty phrase, without half of a reservation, and otherwise unchanged; or refused for its size. |
| ScenarioUnknown.UnknownKey | src/scenario.cpp:420-431 | For every directive but the version line: a key it does not know makes no difference to the flow and candidateset directives, whatever key it is, and is refused by every other. |
| ScenarioUnknown.UnknownKeyAccepted | src/scenario.cpp:75-82 | The text of any request it can express, with any key added to its flow line that the line does not know, is read as that request, or refused for its length. |
| ScenarioLimits.UnknownKeyExample | src/scenario.cpp:420-431 | An accepted text whose flow line carries a cost, a key only a path line has. |
| ScenarioLimits.WideRefused | src/scenario.cpp:394-396 | A request with more occupied domains than half a line has characters is never read back. |
| ScenarioLimits.ValidButRefused | include/flowplace/scenario.hpp:30-31 | A request valid under the default limits whose rendering is refused. |
| Journal.ParseEntryBack | src/store.cpp:653-674 | A framed record parses back to itself, whatever follows. |
| Journal.ParseEntryCanonical | src/store.cpp:446-484 | Only framed records parse: the bytes consumed are those of the record answered. |
| Journal.CutEntryIsDamage | src/store.cpp:446-484 | A record cut short anywhere no longer parses. |
| Journal.CutJournalScan | src/store.cpp:442-484 | A journal cut at any byte scans to exactly its longest prefix of whole records. |
| Journal.ReadRecord | src/store.cpp:446-484 | Piecewise reading with the header, length and checksum tests answers exactly what parsing the bytes answers. |
| Journal.FindLaterRecord | src/store.cpp:564-610 | The scan in blocks that overlap by three bytes ends, and finds a later record exactly when some later offset holds a checksum-correct one. |
| Journal.NothingEmbedded | src/store.cpp:574-578 | Torn bytes without the record magic after their first byte hold no later record. |
| Recovery.ReadSnapshotFileBack | src/store.cpp:347-420 | A written snapshot reads back whole exactly when its payload and counts are within the reader's bounds; otherwise it is refused as corrupt. |
| Recovery.ReplayAppend | src/store.cpp:442-546 | Replaying two stretches of journal is replaying the second on the result of the first. |
| Store.PlacementStore.LoadSnapshot | src/store.cpp:334-421 | Loading answers exactly what the snapshot format says, with the same error codes. |
| Store.PlacementStore.HandleDamage | src/store.cpp:553-640 | Damage is refused when a later record is intact; otherwise reported, refused as a torn tail, or cut off, as the options say. |
| Store.PlacementStore.Apply | src/store.cpp:488-545 | One journal record changes the indexes exactly as replay says, or is refused. |
| Store.PlacementStore.LoadJournal | src/store.cpp:423-548 | The offset loop with its damage handling computes exactly the replay of the scanned records, and leaves the file cut or untouched accordingly. |
| Store.PlacementStore.Account | src/store.cpp:285-324 | Accounting settles every attempt that committed and finds exactly whether an acknowledged one has no placement. |
| Store.OpenStore | src/store.cpp:246-332 | Opening answers, stores and leaves on disk exactly what the specification of opening says. |
| Store.Framed | src/store.cpp:653-674 | The bytes appended are those of the record layout. |
| Store.PlacementStore.AppendRecordRaw | src/store.cpp:642-686 | An append is refused for a read-only store, an oversize payload or a spent budget; otherwise exactly one record becomes durable under the next sequence. |
| Store.PlacementStore.AppendAttemptStart | src/store.cpp:699-725 | A start is refused after a terminal phase or a commit of the attempt; otherwise it is stamped, journaled and noted. |
| Store.PlacementStore.AppendAttemptTerminal | src/store.cpp:727-746 | A terminal phase is refused when it is a start or the attempt has ended; otherwise it is stamped, journaled and noted. |
| Store.PlacementStore.WritePlacement | src/store.cpp:793-820 | The record is checked against its own encoding, appended, and only then indexed; the failing check is unreachable. |
| Store.PlacementStore.CommitPlacement | src/store.cpp:748-821 | A commit replays, conflicts, overflows or writes the next identity and generation exactly as specified, with the state and files that go with it. |
| Store.PlacementStore.Retain | src/store.cpp:888-902 | Exactly the attempts inside the retention window are kept, in key order, and the rest are added to the count of retired ones. |
| Store.PlacementStore.Container | src/store.cpp:904-922 | The snapshot file written is the encoding of the latest placement of every flow and the retained attempts. |
| Store.PlacementStore.Compact | src/store.cpp:872-981 | Compaction makes its steps durable in the order snapshot, empty journal, marker, and leaves the state that goes with them. |
| Store.PlacementStore.MaybeCompact | src/store.cpp:691-697 | Compaction follows an append exactly when the journal has reached its configured length. |
| StoreViews.ReplayView | src/store.cpp:442-546 | Whenever replay accepts a journal it folds exactly the placements it took into the latest-by-flow view and next identity. |
| StoreViews.SnapshotView | src/store.cpp:904-913 | A snapshot loads to the same latest placement of every flow and the same next identity as the memory it was made from. |
| StoreViews.AdvanceTwice | src/store.cpp:488-503 | Replaying the same placements a second time changes nothing. |
| StoreSafety.AppendKeeps | src/store.cpp:642-686 | An append of the next record keeps files and history in step. |
| StoreSafety.SnapshotReplacedKeeps | src/store.cpp:922-947 | With the new snapshot beside the old journal the files still denote the history, or will be refused. |
| StoreSafety.JournalEmptiedKeeps | src/store.cpp:949-965 | With the journal emptied and no marker yet the files denote the history. |
| StoreSafety.MarkerKeeps | src/store.cpp:966-974 | With the marker written the files denote the history. |
| StoreSafety.OpenKeeps | src/store.cpp:246-332 | Opening what sound files hold refuses or yields exactly the history, and leaves the files sound. |
| StoreRuns.PerformKeeps | src/store.cpp:642-981 | After every durable step of every operation the files hold the history, and an answered record is in it. |
| StoreRuns.CrashKeeps | src/store.cpp:872-981 | Stopping after any durable step, or part-way through the next append, leaves files that hold the history up to there. |
| StoreRuns.RunsSound | src/store.cpp:246-981 | Over every run of operations, compactions, crashes and reopenings with any options, the files hold exactly the history, which only grows, as long as no opening has cut a whole record off. |
| StoreGuarantees.ChainIsNumbered | src/store.cpp:771-791 | Identities in the history are 1, 2, 3, ...; generations of a flow are 1, 2, 3, ..., each naming its predecessor. |
| StoreGuarantees.NothingLost | src/store.cpp:246-981 | After any such run, opening with options that read every whole record on disk refuses or shows for every flow exactly the last placement of the history and the identity after the last; the history is numbered without gaps; an open store shows it too. |
| StoreGuarantees.AcknowledgedStays | src/store.cpp:748-821 | A placement once acknowledged is in the history after whatever happens next, reopenings of every kind included. |
| StoreGuarantees.OnePlacementPerAttempt | src/store.cpp:763-769 | While a store stays open no non-zero attempt ever owns two placements, and no commit is forgotten. |
| StoreGuarantees.RetryAnswersTheSame | src/store.cpp:763-769 | Retrying a committed attempt, however many operations later, answers the same placement and writes nothing. |
| StoreGuarantees.CommitWritesTheRequest | src/store.cpp:775-786 | A commit writes one placement at most, which carries the intent, relation, digest, author, epoch and time asked for. |
| StoreGuarantees.WrittenInSequence | src/store.cpp:716-719 | The sequence a record is stamped with is that of the journal record that holds it. |
| StoreReading.OpenExactly | src/store.cpp:246-332 | Opening succeeds exactly when the snapshot is within bounds, replay accepts, the tail is acceptable, and no acknowledged attempt lacks its placement. |
| StoreAcceptance.CompactedReopens | src/store.cpp:872-981 | After the journal was emptied, with the marker absent, torn or whole, opening with any options succeeds exactly when the snapshot fits the bounds, every retained committed attempt owns some flow's latest placement, and what there is of the marker is read or may be dropped. |
| StoreAcceptance.BetweenRenames | src/store.cpp:487-507 | Between the renames, for any options, an unmarked journal leaves only that same condition and an acceptable tail; a marker that names another sequence and is read is refused. |
| StoreAcceptance.TornMarker | src/store.cpp:966-974 | A torn reset marker never looks like damage followed by valid records. |
| StoreReload.PerformTracks | src/store.cpp:642-821 | Every operation that does not compact keeps replay of the files equal to the memory. |
| StoreReload.AppendsReload | src/store.cpp:423-548 | After any run whose session only appended since it was opened, reopening rebuilds every placement, index, identity, sequence and attempt exactly; it refuses only an acknowledged attempt without a placement. |
| StoreReload.CutJournalReopens | src/store.cpp:442-640 | A journal cut at any byte loads exactly as its longest prefix of whole records when the tail is acceptable, and is refused untouched when it is not. |
| StoreReading.ReadBackExactly | src/store.cpp:455-456 | A written record is read back exactly when its payload is within the bound narrowed to 32 bits. |
| StoreReading.OpenReadsPrefix | src/store.cpp:423-640 | Opening with any options: the records up to the first that exceeds the bound are replayed and the rest is a torn tail, refused when it holds a later record or may not be dropped, cut off otherwise; every record is replayed exactly when every record fits. |
| StoreBounds.OpenShowsExactly | src/store.cpp:423-640 | An opening that succeeds, whatever its options, shows the history when its bound admits placements, and otherwise exactly what the snapshot alone shows. |
| StoreBounds.AnyOptionsShow | src/store.cpp:246-640 | After any run, an opening with any options that succeeds shows the history exactly when its bound admits placements or the snapshot alone shows the history. |
| StoreLimits.SmallerBoundLoses | src/store.cpp:553-640 | A run from no files: a placement is acknowledged, the store is reopened with a smaller bound and torn tails repaired, opens empty and has cut the record off. |
| StoreLimits.CompactedOpensOnlyIf | src/store.cpp:872-981 | Whatever was on disk before a compaction, options that open the files afterwards have bounds the snapshot fits, and every retained committed attempt owns a latest placement. |
| StoreLimits.SupersededCommitStrands | src/store.cpp:888-913 | Committing a flow twice for different attempts, the first recorded as committed, makes the next compaction leave files that no options open. |
| StoreLimits.StrandedExample | src/store.cpp:299-320 | A run from no files in which every operation is accepted and after which every opening, with any options, is refused. |
| Reaping.ReapRetainedSlots | src/runtime.cpp:132-149 | The loop ends by the lexicographic measure of order length and scan budget and computes the specified reaping. |
| Reaping.ReapKeeps | src/runtime.cpp:132-149 | Reaping keeps every attempt in flight, leaves the order a duplicate-free listing, and stops within the limit or with only attempts in flight. |
| CoordinatorBackend.RecordFacts | src/runtime.cpp:190-211 | Journaling writes one phase at most, never after a terminal phase of the same attempt, and forgets none. |
| CoordinatorBackend.CommitFacts | src/runtime.cpp:213-246 | A commit adds one placement at most, stamped with the epoch it was given, and answers a record the backend holds. |
| CoordinatorSafety.RegionFrame | src/runtime.cpp:265-313 | Every region of a thread keeps the commit lock discipline, crosses only after the boundary checks, and never makes a slot forget. |
| CoordinatorSafety.StepKeeps | src/runtime.cpp:132-945 | Every step of every thread, in any order, keeps the coordinator's safety invariant. |
| CoordinatorGuarantees.PlacementsAreFenced | src/runtime.cpp:251-313 | In every interleaving each placement was made under the epoch then current and a matching view of authority, and placements never go back an epoch. |
| CoordinatorDurable.RunIsStoreRun | src/runtime.cpp:190-246 | Every run of the coordinator is, on its files, a run of operations of the open store. |
| CoordinatorDurable.CommittedIsDurable | src/runtime.cpp:298-312 | A slot reported as committed names a record of the durable history by identity and generation; it stays there through later operations, crashes and reopenings, and while none of these has cut a whole record off, every opening that reads what the files hold refuses or shows that history. |
| CoordinatorGuarantees.CommittedIsBacked | src/runtime.cpp:298-312 | With or without a store, a slot reported as committed names a record its backend holds. |
| CoordinatorGuarantees.OutcomesAreFinal | src/runtime.cpp:152-170 | The outcome of an attempt, once reached, never changes. |
| CoordinatorGuarantees.CancelledNeverCommits | src/runtime.cpp:718-756 | Once Cancel has answered Ok, nothing later crosses the boundary for that slot, places it or reports it committed. |
| CoordinatorHarm.FreshEndsCommitted | src/runtime.cpp:265-391 | When no id is admitted again after reaping and nothing is committed twice, an attempt that has ended and has a placement is reported as committed; if Await met its commit in flight after the stop, as failed at worst, never as cancelled, fenced or rejected. |
| CoordinatorOwners.StepOwned | src/runtime.cpp:398-495 | A step that admits no id again after reaping and commits nothing twice keeps every attempt driven by one thread or waiting in the queue once. |
| CoordinatorHarm.ShutdownEndsCrossed | src/runtime.cpp:903-922 | Shutdown ends an attempt that has crossed the commit boundary exactly when its id waits in the queue. |
| CoordinatorHarm.StepEnds | src/runtime.cpp:152-170 | Exactly which steps, by the guards of all the code that finalizes, end an attempt that has crossed the boundary, and in which state. |
| CoordinatorHarm.StepPlacedAs | src/runtime.cpp:265-391 | A step makes a slot one that ended in a given state and has a placement exactly when it ends in that state a slot that has one, or appends for a slot that already ended so. |
| CoordinatorHarm.PlacedAsExactly | src/runtime.cpp:132-945 | In every run: a slot is cancelled, fenced, rejected or failed (or committed) and has a placement exactly when some step of the run brought that about. |
| CoordinatorHarm.FailedCommitPlacesNothing | src/runtime.cpp:298-300 | A commit answers an error exactly when it answers no record, and has then written nothing: where files do not fail, the compaction after an append succeeds. |
| CoordinatorHarm.StepTidy | src/runtime.cpp:265-391 | As long as a worker or a commit takes up only what nobody drives, and Shutdown and Await meet no commit in flight, every step keeps one driver to an unfinished attempt. |
| CoordinatorHarm.PlacedEndsCommitted | src/runtime.cpp:251-391 | In every such run an attempt that has ended and has a placement is reported as committed; where only Await is left out of the condition, as failed at worst. |
| CoordinatorHarm.FreshRunIsOrderly | src/runtime.cpp:421-448 | Every run without reused ids and repeated commits is such a run, where Await may be late or never meets a commit in flight after the stop. |
| CoordinatorLimits.CancelledButDurable | src/runtime.cpp:887-925 | A run with a reused id that ends with an attempt reported as cancelled whose placement is among the durable writes of its store. |
| CoordinatorLimits.FencedButDurable | src/runtime.cpp:554-586 | A run with a reused id and no shutdown: two workers take one attempt, and it is reported as fenced with a durable placement. |
| CoordinatorLimits.CommittedTwice | src/runtime.cpp:644-693 | A run without reused ids: Commit called twice with what Prepare answered ends with a fenced attempt whose placement is durable. |
| CoordinatorLimits.FailedButDurable | src/runtime.cpp:701-716 | A run in which Await gives up after the stop on a commit in flight: the attempt is reported as failed and its placement is durable. |
| CoordinatorJournal.JournalIsOrdered | src/runtime.cpp:174-211 | In every run from the start, in every interleaving, the journal shows an attempt's start before its terminal phase and nothing of it afterwards. |
| CoordinatorJournal.StepJournals | src/runtime.cpp:451-489 | Every step journals a terminal phase only for an attempt whose start is already in the journal. |
| CoordinatorCounts.CountersAgree | src/runtime.cpp:152-170 | In every reachable state accepted is completed plus in flight, completed is the sum of the five counters, the queue depth is the queue's length, and active is the number of workers holding a slot. |
| CoordinatorCounts.QueueIsBounded | src/runtime.cpp:430-434 | With at most n submitters at a time, the queue and the admitted submissions together are at most capacity - 1 + n. |
| Model.CheckedMul | include/flowplace/checked.hpp:30-35 | The product is answered exactly when it fits 64 bits. |
| Sorting.SortedUniqueCopy | src/validate.cpp:33-40 | The copy is strictly increasing with the same members, and duplicates are reported exactly when there are any. |
| Sorting.Intersects | src/validate.cpp:48-60 | The two-index loop answers exactly whether the sorted sequences share an element. |
| Sorting.SortedTwins | src/validate.cpp:36 | Neighbours of the sorted sequence differ exactly when no two elements share a key. |
| Validation.AcceptsExactly | src/validate.cpp:73-451 | Validation accepts exactly the well-formed requests, a condition in which the order of lists plays no part. |
| Ranking.RankLessIsStrictTotal | src/engine.cpp:404-415 | The ranking order is irreflexive, asymmetric, transitive, and decides between any two candidates with different ids. |
| Ranking.UnknownIsLast | src/engine.cpp:409 | Where earlier keys tie, a known key ranks before an unknown one, whatever the direction and value. |
| Ranking.RankedKeeps | src/engine.cpp:778 | Ranking keeps the candidates and puts them in strictly ascending rank. |
| Ranking.SameRanking | src/engine.cpp:778 | A set of candidates has one ranking. |
| Exclusions.ExclusionRecorder.Add | src/engine.cpp:425-457 | Adding an exclusion changes the record exactly as specified, dropping new reasons beyond the bound. |
| Exclusions.RecordedIsSummary | src/engine.cpp:425-457 | While all reasons fit, the record holds for each reason its exact count, the lowest paths as sample, and the values of the lowest path. |
| Exclusions.SameRecord | src/engine.cpp:422-457 | Two recorders that saw the same exclusions in any order hold the same record. |
| Exclusions.RecordOrderExactly | src/engine.cpp:425-457 | The record is the same for every order of the same exclusions exactly when the recorder has room for each reason that occurs, or for none. |
| Engine.PlaceRequest | src/engine.cpp:580-981 | The loop over candidates with its recorder computes exactly the specified decision. |
| EngineTheorems.NeverOverflows | src/engine.cpp:623-632 | The headroom of a valid request never overflows. |
| EngineTheorems.LegalVerifies | src/engine.cpp:983-1056 | The intent for any legal candidate of a valid request passes the independent verifier. |
| EngineTheorems.IntentsVerify | src/engine.cpp:948-967 | Every emitted intent verifies; for valid requests the self-verification failure and the overflow branch are never reached. |
| EngineTheorems.ChosenIsBest | src/engine.cpp:778-836 | The chosen candidate is the incumbent that may stay, on which the best improves by no more than the threshold, and otherwise the best legal one: an if and only if. |
| EngineTheorems.PlacesExactly | src/engine.cpp:580-981 | A valid, current request is placed on a path exactly when a legal candidate on it is that choice and the headroom gate does not defer it. |
| EngineTheorems.PlacesTheBest | src/engine.cpp:580-981 | Every placed flow gets such a candidate, with the expected path authority; the decision names the request's attempt, tells exactly how the choice relates to the incumbent, and is degraded exactly when something about the choice is left to be desired. |
| EngineTheorems.ReasonIsFirstFailure | src/engine.cpp:178-315 | A candidate is legal exactly when it fails no constraint; otherwise the reason given is the lowest numbered constraint it fails. |
| EngineOrder.ReorderedIsValid | src/validate.cpp:439-451 | Reordering what a request lists keeps it valid. |
| EngineOrder.Reordered | src/engine.cpp:580-981 | Where the recorder ends with the same record, a reordered request gets the same decision in full, but for the reservation its own list gives to the path of the intent. |
| EngineOrder.OrderShowsExactly | src/engine.cpp:580-981 | The decision on a valid request is the same for every order of its lists exactly when its generations are stale, or the recorder has room for every reason that occurs (or for none) and the path of the candidate to be placed, if any, carries at most one of the reservations the policy lists. |
| EngineOrder.ReasonOrderExample | src/engine.cpp:428-431 | A valid request with two candidates and room for one reason, and its reversal, with different decisions. |
| EngineOrder.ReservationOrderExample | src/engine.cpp:938-945 | A valid request whose one candidate carries two listed reservations, and its reordering, with different intents. |

## Left out

- Scenario: messages are left out, codes are kept. The handlers of the directives are functions of the arguments, not methods: the consumed flags are the keys each handler names. The writer is a function of the request; the growth of its output string is not shown.
- src/transport.cpp, src/process.cpp, src/server.cpp, src/bench.cpp, apps: operating system calls, plumbing and timing.
- File failures (short writes, failed sync or rename) and running with fsync_on_append off: a completed append and a rename are atomic durable steps; a crash may leave part of the append under way.
- StoreRuns.RunsSound: supposes of the run that fewer than 2^64 - 2 placements were made and that no opening has cut a whole record off the journal, which only one whose bound is below a record on disk does; `StoreReading.OpenReadsPrefix` and `StoreBounds.OpenShowsExactly` say what such an opening reads, cuts off and shows.
- StoreGuarantees.NothingLost: carries the same suppositions as `StoreRuns.RunsSound`.
- Store.PlacementStore: `Close`, `Sync` and the statistics are not modelled, nor the lines of the recovery report beyond the settled attempts, the journal length and the retired count; a closed store is modelled in `Coordinator`.
- Store.PlacementStore.CommitPlacement: takes the outcome of recomputing the intent's digest and the clock as inputs.
- Digests (FNV): values and collisions are not modelled; a digest is a pair of numbers or an outcome of comparing them.
- CoordinatorHarm.FreshEndsCommitted: one direction only; a reused id or a second commit need not do harm. `CoordinatorHarm.PlacedAsExactly` has both directions.
- CoordinatorOwners.StepOwned: supposes of the step what `FreshEndsCommitted` supposes of the run; what the other steps do is in `CoordinatorHarm`.
- Coordinator: Commit is called with what Prepare answered, any number of times, but not with a value a caller made up.
- Coordinator: validation failures in RegisterAttempt, the submitted, duplicate and rejection counters, Revalidate and the read-only queries change no modelled state; liveness (Drain, wakeups) needs fairness the code does not fix.
- CoordinatorCounts.QueueIsBounded: the number of concurrent submitters is a parameter of the run, as the code does not bound it.
- Validation: messages are left out, codes are kept. std::sort is not stable, so which of two codes three candidates with one id get is not fixed by the code; the model sorts stably.
- Engine.PlaceRequest: sorted copies searched by binary search are sets and maps, `std::sort` is insertion, and note and label texts are constructors naming what they say; the decision digest is a function of the rest and left out.
- RequestCodec, DecisionCodec: modelled as composed formats on byte sequences rather than as methods on a writer and a reader; the order of the fields, the bounds and the error codes are those of the code, the growth of the buffer in place is not shown. The record codecs, which the store uses, are methods.
- DecisionCodec.DecisionsRoundTrip: texts are arbitrary strings there, while `Engine` names their content, so no lemma connects the two decision types.
- Payloads of wire frames other than requests and decisions, and the recovery report codec: more of the same format combinators.
