# codex-memoryd: a verified model of its resumable scans, bounded readers and commit protocols

codex-memoryd keeps a local memory store for coding agents. This project models the parts of it whose correctness
depends on state carried across calls, and proves what those parts are meant to guarantee:

- **The Dreamer scheduler** (`src/dream.rs`): a resumable scan over five source streams. Each scheduled run pins a band
  (timestamp bounds, per-stream rowid frontiers, an interval of mutation sequences), delivers at most a batch of rows,
  and stores a cursor that moves within the band, rests, or opens the next band. Writers keep changing the store.
- **The PCC replay consumer** (`src/pcc_import.rs`): a bounded line-by-line consumer with replay keys, a policy walk,
  a canonical form and a fail-closed cursor.
- **The ChatGPT importer** (`src/chatgpt_export_import.rs`): a streaming byte guard, the tree checks behind it, and the
  crash protocol of an apply run.
- **The MCP stdio server** (`src/mcp.rs`): bounded line framing and the two-mode connection lifecycle.
- **Smaller pieces**: the TOML string encoder and the owned section of the Codex configuration file (`src/cli.rs`), the
  Markdown chunker and the sync apply loop (`src/ingest.rs`), reciprocal rank fusion (`src/hybrid_retrieval.rs`).

`dafny verify dfyconfig.toml` checks everything.

## How the files fit together

| files | what they hold |
|---|---|
| `basics.dfy`, `json.dfy`, `text_lines.dfy` | options, JSON values, lines and trimming |
| `dream_rows.dfy` | rows, the page query, its order; pages concatenate to the plain query |
| `dream_cursor.dfy` | the cursor as a class, field by field, and the functions its methods are proved against |
| `dream_window.dfy` | how one run selects its window |
| `dream_band.dfy` | one stream: bands, positions, what writers may do, the invariant of a scan |
| `dream_protocol.dfy` | whole executions: runs and writers interleaved; the invariant of the system |
| `dream_theorems.dfy` | exactly once, now or never, no lost update, progress |
| `dream_bounds.dfy` | what the ends of bands owe to the clocks of the runs; rows present when a band opens are served |
| `dream_imported.dfy` | imported ChatGPT turns: where the code passes over a turn, and exactly when |
| `dream_instances.dfy` | two executions in which a turn behind the frontier has not been served |
| `framing.dfy` | the two bounded line readers |
| `pcc_canonical.dfy`, `pcc_policy.dfy`, `pcc_import.dfy`, `pcc_theorems.dfy` | canonical form, policy walk, consumer, theorems about whole streams |
| `pcc_acceptance.dfy` | what records, quarantines and summaries must hold to be taken, in terms of their members |
| `json_guard.dfy`, `json_tree.dfy` | the byte guard against the JSON grammar; decoding; the tree checks |
| `manifest.dfy` | the apply run as a crash protocol |
| `mcp_lifecycle.dfy`, `mcp.dfy` | the lifecycle automaton; the server's message handling |
| `mcp_sessions.dfy` | whole sessions in terms of the JSON the client sends |
| `toml.dfy`, `codex_section.dfy`, `codex_theorems.dfy` | basic strings, the owned section, its theorems |
| `codex_reading.dfy` | a reader of the snippet, and that it gives every setting back |
| `chunker.dfy`, `chunk_shapes.dfy` | the Markdown chunker: what its pieces hold; where it cuts |
| `sync.dfy`, `fusion.dfy` | sync, rank fusion |

Code that changes things step by step is a method, with the fields of its Rust struct where there is one
(`DreamSchedulerCursor`, `BoundedJsonReader`, `ServerState`, `Report`), and is proved equal to a function of the old
state; the theorems are about those functions.

## What the Dreamer model assumes

- A timestamp is its rank in byte order, which SQLite and position comparisons use, and the moment it parses to, which
  `now > frontier` uses. The two orders need not agree.
- Insertion rowids strictly increase (triggers of `migrations/0014` and `0015`), and the frontier is read in one
  transaction (`src/dream.rs:1352-1392`).
- A memory record that is changed and visible afterwards has a fresh, larger mutation sequence
  (`src/store.rs:3031-3113`, `src/store.rs:5387-5398`). A record that is inserted has none: `upsert_record` does not
  stamp it. So a new record is covered by its rowid and a changed one by its sequence, and there is a theorem for each.
- The driver is `src/service.rs:2610-2870`: a window is full when it was limited or holds at least the batch, and the
  batch is positive (`src/config.rs:629`).
- The delivery log counts the runs that store a watermark. A run that fails, or that stops at a runtime or candidate
  limit after its window was processed (`src/service.rs:2845-2862`), stores none, so its rows come again.
- Writers may act between any two transactions of a run, and rows may be deleted, except that a row of a full window
  still has its rowid when the run looks it up (`SourcesRemain`). If the last row of a page is deleted in between, the
  position is stored without a rowid, and the next run starts its band over from a new frontier (`Rewind`).
- Nothing is assumed about future-dated rows: the theorem says exactly which rows are served.
- `DreamBounds.PresentAtPinIsServed` compares a row's timestamp with the clock as strings, as the query does. When the
  clock is not later than the end of the band before, it takes the two to sort as the moments they parse to
  (`SortsAsTime`), which holds for timestamps written in one format.
- Nothing is assumed about imported ChatGPT turns either. The theorems about conclusions, checkpoints, sources and
  records hold whatever is imported. Those about the history of turns hold as long as no run has passed a turn over
  (`clean`, `NoTurnLost`), and `DreamImported` says exactly which runs do. A turn that stands in one window as itself
  and as a derived record is delivered once.

## Findings

- **Imported turns can lose an ordinary turn.** `src/dream.rs:1474-1483` moves the visible-turn position to an imported
  turn that may lie past ordinary turns not yet served. `DreamImported.WindowLosesTurnIff` is the exact condition, for
  every run and whatever writers do: an ordinary turn due outside the turn budget stands before one a record is derived
  from. `DreamInstances.ImportedTurnsLoseATurnForGood` is an execution at whose end such a turn is behind the completed
  frontier, not dated after its band, and not in the log.
- **A row dated after the end of its band is not served** (`src/dream.rs:1667-1674`), then or later.
  `DreamTheorems.ExactlyOnce` states it as an equivalence, `DreamTheorems.NowOrNever` says that no later run makes up for
  it, `DreamInstances.FutureDatedRowIsSkipped` is an execution in which it happens.
- **Bringing back an earlier version of a file, or a chunk of one, is not noticed by sync.** An earlier version has its
  source row, so nothing is done at all (`src/ingest.rs:522-526`): its archived records stay archived and the later
  version's stay active (`Sync.RevertIsIgnored`). A new version that brings back an archived chunk is imported, but the
  archived record passes for the chunk (`src/store.rs:3034-3046`), so no active record carries it
  (`Sync.BroughtBackChunkStaysArchived`). `Sync.CurrentIff` is the exact condition, on the tables before the call, under
  which the path holds only the version's chunks and every one of them is carried.
- **Removing the owned section after inserting it leaves the separating newlines.**
  `CodexTheorems.RemoveAfterUpsert` says what is left: the file is restored only if it was empty.

## Model

| member | source | states |
|---|---|---|
| DreamRows.MatchingIsExact | src/dream.rs:1582-1715 | a page query without its limit lists exactly the rows the filter admits, once each, timestamp descending then rowid ascending |
| DreamRows.MovedPosition | src/dream.rs:1695-1715 | storing the last delivered row as position keeps exactly the matching rows behind it in query order |
| DreamRows.PageRefinesQuery | src/dream.rs:1582-1715 | a limited page is a prefix of the undelivered rows and moving the position leaves exactly the rest |
| DreamRows.PagesConcatenate | src/dream.rs:1582-1715 | within one band the pages, whatever their limits, concatenate to the plain ordered query |
| DreamCursor.UpdateCursorPosition | src/dream.rs:1522-1543 | a slot takes a candidate that lies further in query order, with the identifier fallback for positions without a rowid |
| DreamCursor.UpdateStreamCursor | src/dream.rs:1499-1520 | the position after folding in one stream's sources |
| DreamCursor.UpdateActiveCursors | src/dream.rs:1474-1497 | active sources move the turn or the record position by their kind |
| DreamCursor.FoldReachesLast | src/dream.rs:1394-1543 | whatever order sources are folded in, the position ends at the furthest one in query order |
| DreamCursor.DreamSchedulerCursor.BeginActiveMemoryMutationScan | src/dream.rs:1126-1132 | opens a mutation interval, inheriting its lower end when none is set |
| DreamCursor.DreamSchedulerCursor.CompleteActiveMemoryMutationScan | src/dream.rs:1134-1138 | the upper end becomes the lower end of the next interval |
| DreamCursor.DreamSchedulerCursor.NextActiveMemoryMutationScan | src/dream.rs:1140-1155 | the next interval starts where the previous one ended |
| DreamCursor.DreamSchedulerCursor.Rewind | src/dream.rs:1251-1265 | a cursor that cannot be resumed starts its band over from a new frontier |
| DreamCursor.DreamSchedulerCursor.UpdateSchedulerCursor | src/dream.rs:1394-1497 | a full window moves all five positions and nothing else |
| DreamCursor.DreamSchedulerCursor.EndUnbounded | src/dream.rs:1236-1250 | ending an unbounded band makes its frontiers the lower frontiers and clears positions |
| DreamCursor.DreamSchedulerCursor.EndBand | src/dream.rs:1266-1339 | ending a bounded band opens the next one when time has moved on, otherwise rests |
| DreamCursor.SchedulerCursorForRun | src/dream.rs:1053-1124 | which band a run is pinned to, for every stored watermark |
| DreamCursor.SchedulerWatermarkAfter | src/dream.rs:1157-1343 | which cursor is stored after a run, for every branch |
| DreamWindow.ImportedCandidates | src/dream.rs:843-895 | the first imported turns of a page, up to the budget left |
| DreamWindow.BuildEvidenceWindow | src/dream.rs:2090-2266 | the streams share one shrinking budget, each queried only while some is left |
| DreamWindow.Run | src/dream.rs:347-520 | normalisation of the cursor, record page, imported candidates, window |
| DreamWindow.WindowWithinLimit | src/dream.rs:2090-2266 | a window never exceeds the batch, and a short one delivered every stream's whole remainder |
| DreamWindow.EarlierFirst | src/dream.rs:2090-2266 | the streams are served in priority: one that leaves matching rows out for want of room leaves no room to any behind it |
| DreamWindow.SortActiveSorts | src/dream.rs:347-520 | records and imported candidates stand in one list, newest first and then by identifier |
| DreamWindow.RewindLosesNothing | src/dream.rs:1251-1265 | a cursor that starts its band over asks again for every row within the new frontier that it had asked for |
| DreamWindow.NormalisingLosesNothing | src/dream.rs:354-367 | so does a cursor whose positions lack rowids |
| DreamBand.WritersKeepScan | src/dream.rs:1352-1392 | inserts, changes and deletions by writers keep what the history says about every visible row |
| DreamBand.PageKeepsScan | src/dream.rs:1582-1715 | serving a page keeps it, and serves no row version twice |
| DreamBand.StartKeepsScan | src/dream.rs:1053-1124 | a band may start at any captured frontier that continues the last |
| DreamBand.FinishKeepsScan | src/dream.rs:1157-1343 | a drained band may be completed |
| DreamBand.DrainedStays | src/dream.rs:1607-1693 | writers cannot put a row into a band that has been drained |
| DreamBand.CoveredIsAnswered | src/dream.rs:1607-1693 | every row behind the completed frontier belongs to one completed band |
| DreamBand.ChangedIsServed | src/dream.rs:2034-2076 | a record last changed within a completed interval has been served in that state |
| DreamProtocol.MatchesIsBand | src/dream.rs:1607-1693 | under a draining cursor the query filter is the band, behind the stored position |
| DreamProtocol.PageIsPage | src/dream.rs:1582-1715 | a query returns a page of the band, and an unlimited one drains it |
| DreamProtocol.FoldIsFurthest | src/dream.rs:1394-1543 | the folded position is the last row of the page |
| DreamProtocol.PinningKeeps | src/dream.rs:1053-1124 | pinning yields a resumable cursor that agrees with the delivery history |
| DreamProtocol.PositionsKeyed | src/dream.rs:1394-1497 | a full run leaves each of the five positions at the last row it delivered from that stream, with its rowid, imported turns included |
| DreamProtocol.WindowHoldsPage | src/dream.rs:2090-2266 | a window holds one page of every stream, of turns unless the run passes some over, and all that was left when it is short |
| DreamProtocol.EndOfRun | src/dream.rs:1157-1343 | the stored watermark keeps agreeing with the history: moved, rested or in the next band |
| DreamProtocol.RunKeepsInv | src/dream.rs:347-520 | every run keeps the invariant of the system, whatever turns are imported |
| DreamProtocol.InvAlways | src/service.rs:2610-2870 | it holds in every state of every execution of runs and writers |
| DreamTheorems.HistoryGrowsByPage | src/dream.rs:1157-1343 | the history of a stream grows by the rows a run delivers and by nothing else |
| DreamTheorems.PagesAreWindow | src/dream.rs:2090-2266 | those rows are exactly what the run's window holds of the stream, in query order |
| DreamTheorems.ExactlyOnce | src/dream.rs:1053-1343 | in every execution no append-only row is served twice or before its rowid is inside a frontier, and a row behind the completed frontier was served if and only if its band did not end before its timestamp; of turns while none has been passed over |
| DreamTheorems.ServedWhenNotFutureDated | src/dream.rs:1607-1693 | a row no completed band was dated before has been served exactly once |
| DreamTheorems.NowOrNever | src/dream.rs:1607-1693 | once the completed frontier has passed a row, no later run serves it |
| DreamTheorems.NoLostUpdate | src/dream.rs:2034-2076 | a visible record last changed at a sequence the completed scans reached has been served in its present state, changes between pages included |
| DreamTheorems.InsertedRecordServed | src/dream.rs:1976-2080 | a record inserted without a sequence is served under the rule for append-only rows |
| DreamBounds.PinnedEnd | src/dream.rs:1053-1124 | a run that opens a band ends it at its own clock, or at the end of the band before if the clock is not later than that; only a first run may leave it open-ended |
| DreamBounds.OpenedEnd | src/dream.rs:1266-1339 | a run that completes a band opens the next exactly when its clock is later than the end of the completed one, behind what that covered, up to the new frontier and its clock |
| DreamBounds.TimestampBand | src/dream.rs:1053-1124 | with a bare timestamp as watermark the first band holds exactly the visible rows dated from it up to the clock |
| DreamBounds.PresentAtPinIsServed | src/dream.rs:1053-1343 | in every execution a row present when a run opens a band, behind the completed frontier and dated no later than that clock, is in the log once the band is completed |
| DreamBounds.PresentAtEndIsServed | src/dream.rs:1266-1343 | the same for the band a run opens behind the one it completes |
| DreamTheorems.WritersAddNothing | src/dream.rs:1607-1693 | writers never add to the undelivered rows of a band |
| DreamTheorems.UndeliveredFalls | src/dream.rs:1394-1497 | the rows of each window come off the undelivered rows of the band, whatever writers do; they are the window's count less the turns that stand in it twice |
| DreamTheorems.BandProgress | src/dream.rs:1157-1343 | a run that is not full completes the band in every stream, a full one stays in it |
| DreamTheorems.EveryBandEnds | src/dream.rs:1157-1343 | along any stretch of full runs, limited ones included, and writers no more batches that hold anything are delivered in one band than it has undelivered rows |
| DreamTheorems.DrainedBandEnds | src/dream.rs:1157-1343 | a band with nothing left is completed by the next run that is not limited |
| DreamProtocol.EveryRunSteps | src/dream.rs:347-520 | from every state every run has an outcome and a next state |
| DreamProtocol.StillRunSteps | src/service.rs:2610-2870 | a run during which nobody writes is a step of an execution from every state of one |
| DreamImported.SkippedIff | src/dream.rs:1474-1483 | over a list of due turns, the position passes over exactly the ordinary ones outside the budget that stand before a derived one |
| DreamImported.WindowLosesTurnIff | src/dream.rs:1474-1483 | a run, with writers between its queries, leaves a due turn out and moves the position past it if and only if the turn is an ordinary one outside the turn budget and due before one a record is derived from |
| DreamImported.NoTurnLostIff | src/dream.rs:1474-1483 | a run keeps the history of turns exact if and only if no due turn meets that condition and its derived turns are still in the table |
| DreamImported.NothingImportedNothingLost | src/dream.rs:843-895 | in particular while no turn is imported |
| DreamImported.ImportedTurnsLoseATurn | src/dream.rs:1474-1483 | cursors and windows of two runs over a store in which an ordinary turn stands between imported ones and is in neither window |
| DreamInstances.ImportedTurnsLoseATurnForGood | src/dream.rs:1474-1483 | these runs as an execution: the turn ends behind the completed frontier, not dated after its band and not served |
| DreamInstances.FutureDatedRowIsSkipped | src/dream.rs:1667-1674 | an execution in which the completed frontier passes a row dated after its band that was not served |
| Framing.LinesAreASplit | src/mcp.rs:304-332 | the reference split loses no byte and breaks only behind newlines |
| Framing.ReadMcpLine | src/mcp.rs:304-332 | the next line, flagged and emptied when over the limit (a loop invariant keeps the buffer within it), and the stream left at the next line |
| Framing.ReadMcpLines | src/mcp.rs:304-332 | reading to the end refines the plain split, however the stream is cut into buffers |
| Framing.ReadPccLine | src/pcc_import.rs:734-753 | the next line, or a marker one byte over the limit as soon as it is too long, independent of buffering |
| Framing.PccLineAgrees | src/pcc_import.rs:734-753 | a line of legal length is the line of the plain split, and reading goes on behind it |
| Framing.PccLinesAgree | src/pcc_import.rs:734-753 | of any input it returns the lines of the plain split up to the first that is too long, and a line too long for that one |
| PccCanonical.OrderForgotten | src/pcc_import.rs:685-699 | values that differ only by member order have equal canonical forms |
| PccCanonical.CanonicalSeparates | src/pcc_import.rs:685-699 | equal canonical forms come only from such values |
| PccCanonical.CanonicalIsComplete | src/pcc_import.rs:685-699 | so the canonical form is a complete invariant of recursive member reordering |
| PccCanonical.CanonicalIsReordering | src/pcc_import.rs:685-699 | the canonical form is itself a reordering of the value |
| PccCanonical.CanonicalizeIdempotent | src/pcc_import.rs:685-699 | canonicalising twice changes nothing more |
| PccCanonical.CanonicalInKeyOrder | src/pcc_import.rs:685-699 | at every level the members of a canonical form ascend by key |
| PccPolicy.PolicyVisit | src/pcc_import.rs:645-662 | the walk with its shared counter decides acceptance, depth and budget at once, despite stopping early |
| PccPolicy.PolicySafeObject | src/pcc_import.rs:637-643 | true exactly when every key and string is accepted, nothing lies deeper than 32 and at most 4096 values are visited |
| PccPolicy.PolicySafeIff | src/pcc_import.rs:637-662 | these conditions are that a full walk from depth 0 meets at most 4096 values, none deeper than 32, each with accepted strings and keys |
| PccImport.RunReader | src/pcc_import.rs:155-327 | the reader over any buffering computes the import of its lines |
| PccImport.ReadLines | src/pcc_import.rs:155-296 | the loop: limits, blank lines, one line at a time |
| PccImport.ConsumeLine | src/pcc_import.rs:185-290 | what one line does to counters, keys and the pending cursor |
| PccImport.CountRecord | src/pcc_import.rs:395-451 | a record is imported, skipped by its key, or quarantined with a reason |
| PccImport.Report.ConsumeQuarantine | src/pcc_import.rs:534-587 | when a producer quarantine is accepted and what it counts |
| PccImport.ConcludeReport | src/pcc_import.rs:296-327 | the receipt, with the cursor moved only for a clean stream |
| PccImport.RefusalOf | src/pcc_import.rs:395-512 | the first reason a record is refused for, or none |
| PccAcceptance.AdmittedIff | src/pcc_import.rs:395-512 | a record is admitted exactly when its members have the right shapes, name the scope, may move between the profiles, pass the boundary and the policy, and its key is the digest of its canonical identity |
| PccAcceptance.RefusalTells | src/pcc_import.rs:395-512 | each quarantine reason says which of these it is for |
| PccTheorems.ReplayIsIdempotent | src/pcc_import.rs:155-327 | replaying a stream with its returned keys marked as seen imports 0, skips what was imported or skipped, and reports the same quarantines, reasons and cursor |
| PccAcceptance.ImportedComesFrom | src/pcc_import.rs:155-327 | every imported key is that of an admissible record on a line of the input, and was not among the keys seen before |
| PccAcceptance.EveryRecordTaken | src/pcc_import.rs:155-327 | of a complete input every record line holds an admissible record, and its key is imported or was seen before |
| PccAcceptance.ReportedOnce | src/pcc_import.rs:155-327 | the imported count is that of the keys reported, each once |
| PccAcceptance.QuarantineIff | src/pcc_import.rs:534-587 | a producer quarantine is accepted under its own reason exactly when it names the scope's profile and destination, the boundary allows it, its digests are well formed and the reason is a known one the policy accepts |
| PccAcceptance.QuarantineLineHas | src/pcc_import.rs:534-587 | the index a quarantine line counts for is the one it names |
| PccAcceptance.CursorIsAnnounced | src/pcc_import.rs:589-635 | the cursor moves only to what the one summary of a complete input announces, whose claims are the counts of the lines before it |
| PccAcceptance.AnnouncedMoves | src/pcc_import.rs:296-327 | conversely good lines, a summary that claims what they add up to with an acceptable cursor, and nothing behind it move the cursor there |
| PccAcceptance.ComplaintsAreTold | src/pcc_import.rs:155-327 | reasons are reported once each, some exactly when something was quarantined, and that of every line read is among them |
| PccAcceptance.ToldIsAComplaint | src/pcc_import.rs:155-327 | no other reason is reported, but for the three about the input as a whole |
| PccAcceptance.RefusedBeforeReading | src/pcc_import.rs:329-376 | an import is refused before reading exactly for an unusable profile, target, workspace, destination, cursor or seen key |
| PccTheorems.ConsumeAccounts | src/pcc_import.rs:155-327 | imported, skipped, quarantined and an accepted summary account for every non-blank line consumed |
| PccTheorems.NoSummaryYet | src/pcc_import.rs:155-310 | a stream ends clean if and only if it fits the line limit and is complete |
| PccTheorems.CursorFailsClosed | src/pcc_import.rs:296-327 | the cursor leaves its initial value only for a complete stream, and anything else is reported |
| PccTheorems.GoodLinesCount | src/pcc_import.rs:395-587 | the counters a summary is compared with are those of the lines before it |
| PccTheorems.AcceptedSummaryIsTrue | src/pcc_import.rs:589-635 | when the cursor moves the summary's counts equal the records, quarantines and indexes of the stream |
| PccTheorems.KeyIgnoresMemberOrder | src/pcc_import.rs:664-683 | the idempotency key does not depend on member order at any level |
| JsonGuard.BoundedJsonReader.Inspect | src/chatgpt_export_import.rs:1387-1428 | the fields after inspecting some bytes, and whether the limits held |
| JsonGuard.BoundedJsonReader.ReadAll | src/chatgpt_export_import.rs:1431-1437 | reads of any sizes decide what one read of all bytes decides |
| JsonGuard.ScanJoin | src/chatgpt_export_import.rs:1387-1428 | inspecting a then b is inspecting a followed by b |
| JsonGuard.GuardIsExact | src/chatgpt_export_import.rs:1387-1428 | on the text of any JSON value the guard accepts exactly when brackets and raw strings are within the limits, and returns to where it was |
| JsonGuard.JsonTextIsExact | src/chatgpt_export_import.rs:1364-1437 | for a whole JSON text in any chunks, ending outside strings at nesting 0 |
| JsonTree.DecodedNoLonger | src/chatgpt_export_import.rs:920-928 | a decoded string is never longer in bytes than its raw text |
| JsonTree.ValidateIsExact | src/chatgpt_export_import.rs:894-928 | the tree walk accepts exactly the trees within depth and length limits |
| JsonTree.GuardSubsumesTreeChecks | src/chatgpt_export_import.rs:765-774 | no conversation of an array that passed the guard is refused by the tree checks |
| Manifest.Importer.StageMessages | src/chatgpt_export_import.rs:442-506 | a message is staged with its turn unless its source row exists |
| Manifest.Importer.WritePendingManifest | src/chatgpt_export_import.rs:697-704 | what the pending file holds after each way the write can go wrong |
| Manifest.Importer.FinalizePendingManifest | src/chatgpt_export_import.rs:706-710 | the rename publishes the pending file or leaves both files alone |
| Manifest.Importer.Apply | src/chatgpt_export_import.rs:540-619 | the whole run for every failure and crash |
| Manifest.StagingKeeps | src/chatgpt_export_import.rs:442-506 | every message ends with its source row, rows grow by exactly what is counted as created, and staging never trips over its own turns |
| Manifest.StagingCreates | src/chatgpt_export_import.rs:442-506 | staging adds exactly the new messages, in order, each turn row the message itself |
| Manifest.OutcomeMeans | src/chatgpt_export_import.rs:540-619 | what each outcome leaves: Finalized means the rows of the new messages and the run's own manifest, published, with nothing pending |
| Manifest.CommitsIff | src/chatgpt_export_import.rs:540-619 | for which failures a run commits, exactly |
| Manifest.OutcomeIff | src/chatgpt_export_import.rs:540-619 | which outcome a run has, exactly: it dies with the process, is pending when only the rename fails, is refused when anything before it does |
| Manifest.PendingLeft | src/chatgpt_export_import.rs:540-552 | what the pending file is after a run that does not commit |
| Manifest.FaultlessRunFinalizes | src/chatgpt_export_import.rs:540-619 | a run in which nothing fails finalizes, with its own counts in the manifest |
| Manifest.RunKeepsGood | src/chatgpt_export_import.rs:343-362 | whatever goes wrong, rows and the published manifest change only by a commit, and refusal means no commit |
| Manifest.PublishedIsCommitted | src/chatgpt_export_import.rs:540-619 | over any sequence of runs a published manifest is that of a run that committed |
| Manifest.LastRunPublishes | src/chatgpt_export_import.rs:540-619 | whatever runs went before, one in which nothing fails publishes its own manifest |
| Manifest.RerunPublishes | src/chatgpt_export_import.rs:606-619 | rerunning a committed apply adds no source or turn row and, if nothing fails, publishes its manifest |
| McpLifecycle.StateIsHistory | src/mcp.rs:334-548 | after any messages the state is determined by the first opener and the notifications behind it |
| McpLifecycle.ModeIsFixed | src/mcp.rs:334-548 | a connection mode once chosen never changes |
| McpLifecycle.AdmittedIffEntitled | src/mcp.rs:398-492 | a request gets past the lifecycle exactly when it carries the whole modern metadata on a connection no initialize opened, or an accepted initialize and then an initialized notification came before |
| McpLifecycle.ServedOnlyWhenEntitled | src/mcp.rs:334-492 | every dispatch of a session answers such a request |
| McpLifecycle.EntitledIsServed | src/mcp.rs:557-586 | an entitled tools/list is answered, and an entitled call of an offered tool reaches it |
| Mcp.HandleToolCall | src/mcp.rs:608-623 | a tool is reached exactly when it is offered in this mode |
| Mcp.HandleRequest | src/mcp.rs:557-586 | listing, calling with legal parameters, unknown methods |
| Mcp.ServerState.HandleMessage | src/mcp.rs:334-396 | envelope checks in order, notifications, new state and answer |
| Mcp.ServerState.HandleIncoming | src/mcp.rs:392-492 | version, metadata, mode and phase checks in order, new state and answer |
| Mcp.ServerState.HandleModern | src/mcp.rs:409-463 | the modern part: metadata, mode, then dispatch |
| Mcp.ServerState.HandleLegacy | src/mcp.rs:464-492 | the legacy part: discover, mode, phase, then dispatch |
| Mcp.ServerState.Initialize | src/mcp.rs:495-548 | when initialize is accepted, what it negotiates, the error otherwise |
| Mcp.RunStdio | src/mcp.rs:229-302 | however the input is buffered, the server answers its lines in order through one connection state |
| Mcp.ReachedToolsAreListed | src/mcp.rs:608-623 | for any input bytes only tools in the session's list are reached, so no write tool without write tools |
| McpSessions.CallIsAsSent | src/mcp.rs:564-583 | the call read from the parameters has the name and arguments sent, null read as absent, and parameters with any other key are none |
| McpSessions.ReachedAsSent | src/mcp.rs:229-302 | over any input bytes a tool is reached only for a line that calls this tool with these arguments under this id |
| McpSessions.SentIsReached | src/mcp.rs:557-626 | a line of an entitled client that calls a listed tool reaches it, with its arguments and under its id |
| McpSessions.ModernIs | src/mcp.rs:392-436 | a request is modern exactly when its metadata names the modern version and has client name, version and capabilities |
| McpSessions.LegacyIs | src/mcp.rs:398-420 | a legacy request states no version in its metadata or one of the two legacy ones; any other but the modern one is unsupported |
| McpSessions.WelcomedAsAsked | src/mcp.rs:495-548 | only the first opener is welcomed, a complete initialize, and the version settled on is the one asked for if it is a known legacy version and the newest legacy one otherwise |
| McpSessions.GreetedIsWelcomed | src/mcp.rs:495-548 | the first opener, if a complete initialize for a legacy version, is welcomed under its id |
| McpSessions.AnswerEchoesId | src/mcp.rs:334-392 | an answer carries the id of its message, or null when that has no legal id |
| McpSessions.UnansweredIff | src/mcp.rs:334-392 | exactly JSON-RPC 2.0 messages without an id go unanswered |
| McpSessions.EnvelopeErrors | src/mcp.rs:334-392 | which messages are refused for their envelope, and with which code |
| McpSessions.CodesMean | src/mcp.rs:392-492 | for each of the five error codes, exactly which requests get it, in terms of the request and the messages before it |
| McpSessions.ChompedIsTheText | src/mcp.rs:229-302 | the text of a line is what stands before its line end |
| Toml.TomlBasicString | src/cli.rs:2874-2907 | the encoding, refused exactly for strings with a NUL |
| Toml.QuotedReadsBack | src/cli.rs:2874-2907 | an encoded string reads back as itself under the TOML rules, whatever follows |
| Toml.EscapedIsOneLine | src/cli.rs:2874-2907 | the encoding holds no control character, so no raw newline |
| Toml.PrintableStays | src/cli.rs:2874-2907 | an encoding differs from its string exactly when that holds a control character, quotation mark or backslash |
| Toml.ListReadsBack | src/cli.rs:2909-2924 | a rendered array reads back as its strings |
| CodexSection.RenderSnippet | src/cli.rs:2909-2936 | the snippet, refused exactly when a setting holds a NUL |
| CodexSection.FindSection | src/cli.rs:2951-2970 | the offsets of the section: its first header line up to the next table header or the end |
| CodexSection.UpsertSection | src/cli.rs:2972-2989 | replacement in place, or appending with its separation |
| CodexSection.RemoveSection | src/cli.rs:2991-2997 | the text without the section |
| CodexTheorems.SnippetIsOwned | src/cli.rs:2909-2936 | the snippet of NUL-free settings is exactly seven lines and a section of its own |
| CodexReading.DecimalReadsBack | src/cli.rs:2909-2936 | a number written in decimal reads back as itself |
| CodexReading.SnippetReadsBack | src/cli.rs:2909-2936 | reading the snippet key by key gives the command, arguments, tools, approval mode and both timeouts back, each under its own key |
| CodexTheorems.FoundIsTheSection | src/cli.rs:2951-2970 | the section found is the first header line and the lines behind it that are no table header, followed by one or nothing; none is found exactly when there is no header line |
| CodexTheorems.EditsKeepTheRest | src/cli.rs:2970-2997 | upserting puts the text in the place of that section and removing takes it out; every character around it stays |
| CodexTheorems.AppendKeepsFile | src/cli.rs:2970-2989 | without one the text is appended behind an empty line, the file before it unchanged |
| CodexTheorems.UpsertedIsFound | src/cli.rs:2951-2989 | after an upsert the section found is exactly the text written and the text around it is unchanged |
| CodexTheorems.LastUpsertWins | src/cli.rs:2972-2989 | a second upsert leaves no trace of the first, so upserting is idempotent |
| CodexTheorems.RemoveAfterUpsert | src/cli.rs:2991-2997 | what removing leaves after an upsert; a file that had no section is restored only if it was empty |
| Chunker.SplitFixed | src/ingest.rs:865-884 | cuts at the first break at or behind the 1500th character of a piece |
| Chunker.PiecesAreLong | src/ingest.rs:865-884 | every piece but the last has at least 1500 characters and ends at a break |
| ChunkShapes.PiecesAreTheText | src/ingest.rs:865-884 | the pieces are the text cut up, but for a blank rest, and none has a break between its 1500th character and its last |
| Chunker.FixedPiecesConserve | src/ingest.rs:865-884 | the pieces hold the non-whitespace characters of the text, once each and in order |
| Chunker.IsNumberedBullet | src/ingest.rs:848-861 | true exactly when a dot or parenthesis stands behind one or more digits and nothing else |
| Chunker.SplitSection | src/ingest.rs:793-846 | a section is split into bullets and paragraphs, each under the heading |
| Chunker.GatherSections | src/ingest.rs:757-775 | sections start at headings that follow text |
| Chunker.ChunkMarkdown | src/ingest.rs:757-788 | the chunks of a document |
| Chunker.SectionsConserve | src/ingest.rs:757-775 | the sections together hold the non-whitespace characters of the document in order |
| Chunker.BlocksConserve | src/ingest.rs:793-846 | the blocks of a body hold those of its lines, once each and in order |
| Chunker.ChunksConserve | src/ingest.rs:757-884 | chunking conserves text: only headings are repeated, one before each block |
| Chunker.PlainTextConserved | src/ingest.rs:757-884 | of a document none of whose lines is a heading the chunks hold exactly the non-whitespace characters |
| ChunkShapes.SectionsCutAtHeadings | src/ingest.rs:757-775 | the sections are the lines between cuts at exactly the headings that follow text; a section holds no heading behind text |
| ChunkShapes.HeadingIff | src/ingest.rs:757-775 | a heading is a line whose first character that is not white space is a number sign |
| ChunkShapes.BlocksShape | src/ingest.rs:793-846 | the blocks lie on ascending stretches of lines, each one bullet or one whole paragraph, and only blank lines lie in none |
| ChunkShapes.HeadedChunks | src/ingest.rs:793-846 | every chunk of a section has its heading as first line and one block behind it |
| ChunkShapes.ChunkIsAPiece | src/ingest.rs:777-788 | every chunk of a document is a piece of such a chunk, trimmed and not blank |
| Sync.Store.UpsertSource | src/store.rs:2946-2989 | a source row is added unless path and hash are known |
| Sync.Store.UpsertRecord | src/store.rs:3031-3172 | a record is added unless one with its hash, or an active current one with its content, exists |
| Sync.Store.ArchiveStalePathRecords | src/store.rs:3815-3849 | exactly the active records of the path outside the kept hashes are archived and counted |
| Sync.Store.WriteChunks | src/ingest.rs:535-602 | the chunk loop: kept hashes and counters |
| Sync.Store.ApplyFile | src/ingest.rs:441-614 | one usable file: unchanged files skipped whole, changed ones written and their stale records archived |
| Sync.Store.RunSync | src/ingest.rs:198-647 | a whole batch |
| Sync.EveryChunkCounted | src/ingest.rs:206-647 | created, skipped and rejected add up to the chunks proposed and the files refused whole, and record rows grow by created |
| Sync.ApplyIsIdempotent | src/ingest.rs:206-647 | applying a batch again, even after other batches, changes no table, creates and updates 0 and skips every proposed chunk |
| Sync.UpdatedAreArchived | src/ingest.rs:206-647 | the updated count of a run is the number of records it archives |
| Sync.RunKeepsRecord | src/store.rs:3815-3849 | a run changes a record only by archiving it, and only an active one whose path the batch holds in a version without its chunk; records of other paths stay as they are |
| Sync.AddedComeFromBatch | src/ingest.rs:535-602 | every record a run adds carries an accepted chunk of a file of the batch, under that file's path |
| Sync.FreshUnlessImported | src/ingest.rs:522-614 | after applying a file its path holds only chunks of this version, unless this version had been imported before |
| Sync.CarriedIff | src/store.rs:3031-3172 | after applying a new version one of its chunks is carried by an active record if and only if an active record for it survives the call or no record passed for a chunk of its hash |
| Sync.CurrentIff | src/ingest.rs:522-614 | the exact condition under which the version applied is the current one: nothing else at its path and every chunk carried |
| Sync.BroughtBackChunkStaysArchived | src/store.rs:3034-3046 | an instance in which a new version brings back an archived chunk and no active record carries it |
| Sync.RevertIsIgnored | src/ingest.rs:522-526 | an instance in which an earlier version brought back is ignored |
| Fusion.AddRanking | src/hybrid_retrieval.rs:83-92 | a ranking adds the weight of each candidate's first occurrence |
| Fusion.SumScores | src/hybrid_retrieval.rs:80-92 | every candidate and its summed weight |
| Fusion.ReciprocalRankFusion | src/hybrid_retrieval.rs:79-103 | all candidates, by summed weight and then identifier |
| Fusion.FusedIsUnique | src/hybrid_retrieval.rs:94-103 | that determines the result, which lists nothing twice |
| Fusion.OrderOfRankingsIsIrrelevant | src/hybrid_retrieval.rs:79-103 | reordering the rankings does not change the result |
| Fusion.ConsensusIsKept | src/hybrid_retrieval.rs:79-103 | a candidate that comes first in every ranking comes first in the result |
| Fusion.TwoPlacesBeatOne | src/hybrid_retrieval.rs:79-103 | a candidate at index r of two rankings comes before one that is first in a single other one exactly when r is at most k, or at k + 1 by identifier |

## Left out

- DreamCursor.SchedulerCursorForRun: legacy cursors (positions without a rowid, bounds without frontiers, pending scans
  without an upper sequence) are modelled branch by branch, but the execution theorems start from no cursor and so do not
  say what a migrated cursor delivers.
- DreamTheorems.ExactlyOnce: says nothing about the history of turns behind a run that passed one over, where it fails;
  and of a run that finds a delivered row deleted before it looks the rowid up (SourcesRemain) nothing is proved.
- DreamCursor.UpdateActiveCursors: a stored memory record whose own metadata names `chatgpt-export` as its source moves
  the turn position like an imported turn (`src/dream.rs:2396-2404`); the model routes by where a source came from.
- DreamWindow.RewindLosesNothing: speaks of cursors whose mutation scan has a lower end or has not begun; no run stores
  any other.
- DreamWindow.ImportedCandidates: whether a turn yields a candidate record is a flag of the turn.
- DreamTheorems.NoLostUpdate: changes to `last_used_at` and supersession marks, which stamp no sequence, are not changes
  of a record in this model.
- DreamWindow.Run: scope and repository filters are the `visible` flag of a row; candidate scoring, subjects, markers and
  decay (word lists, regular expressions and floating point) are not part of this model.
- PccImport.RunReader: digests, the policy screen, the profile boundary table and the list of producer reason codes are
  functions the theorems hold for, whatever they are.
- JsonGuard.GuardIsExact: speaks of texts of the grammar; what the guard does with a text the parser refuses does not
  matter, since the parser refuses it. Counters do not saturate.
- JsonTree.GuardSubsumesTreeChecks: the recursion limit and the UTF-8 check of the JSON parser, which refuse more, are
  not modelled.
- Manifest.Importer.Apply: selection filters, reports, the evidence ledger and policy events are not part of this model;
  two apply runs never overlap.
- Mcp.RunStdio: UTF-8 decoding and JSON parsing are a function of the line; message texts of errors, the arguments of
  each tool and what the tools do are not modelled.
- CodexSection.FindSection: offsets count characters where the source counts bytes.
- CodexSection.RenderSnippet: the self-check with a TOML parser is foreign code.
- Chunker.ChunkMarkdown: artifact kinds, the cap of 200 chunks, the minimum of 8 characters and classification come after
  it and are left out.
- Sync.Store.RunSync: screening, hashing and classification of a file happen before it; merged source identifiers,
  ledger entries, the sync cursor and preview mode are left out, and store errors end the run.
- Fusion.ReciprocalRankFusion: weights are exact; with floating point, sums may depend on the order of the rankings.
- SQL text, SQLite, connection pools, HTTP, containers, command-line dispatch, configuration merging, backups, the other
  exports and the Python release scripts: foreign code, input and output, or easy members only.
