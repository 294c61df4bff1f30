# Verified models of the ERP backend

Dafny 4.11 models of four parts of the backend, with proofs. `dafny verify dfyconfig.toml` checks the whole project.

- **Realtime delivery.** One process pumps a durable ordered log into connected sockets: a cursor and a single-flight
  drain, one FIFO queue per stream, a per-socket window of delivered ids, replays, a full-resync barrier that jumps
  the cursor, and an authorization-health generation that fences every emission. `RealtimeModel` is the transition
  system (one action is the code between two awaits, or something the outside world does meanwhile), `RealtimeSafety`
  its invariant, `RealtimeFrames` what a step leaves alone, `RealtimeHistory` the moments of a run that its dispatches
  and barriers go back to, `RealtimeCursor` when the cursor moves back, `RealtimeRuntime` the object whose methods are
  proved to take exactly those steps and to keep the invariant, `RealtimeReplay` the two replay loops and a client
  that resumes, `RealtimeValidation` the read that repairs the log. `RoomIntents` and `RoomSubscriptions` are the
  subscription queue of one socket.
- **SQL patches.** The hand-written PostgreSQL scanner (`SqlScanner`), what it depends on (`SqlLocality`), where
  statements lie (`SqlStatements`), the removal of the outer transaction (`SqlUnwrap`, `SqlPatch`, `SqlCleanup`), the
  opacity of quoted text (`SqlOpaque`), the literal printers of the project-office generator (`SqlLiterals`), and the
  migration ledger under concurrent, failing and crashing runs (`MigrationLedger`, `MigrationRunner`).
- **Accounting export.** Exact decimals (`DecimalMoney`), the double-entry builder (`AccountingDomain`,
  `AccountingBuilder`, `AccountingBalance`), the delimited file and a reader for it (`AccountingFile`), the batch life
  cycle with claims (`AccountingStore`, `AccountingSafety`, `AccountingRepository`).
- **Identification labels.** Issue, print, invalidate and replace (`LabelRegistry`, `LabelService`), chains of
  replacements over whole runs (`LabelChains`), scans (`LabelScans`).

`IdempotentCommands` holds the receipt protocol once, for any commands; accounting and labels are its two instances.

Findings the proofs turned up:

- The cursor of the drain is not monotone: a dispatch that returns stores its own sequence even when a barrier has
  moved the cursor further meanwhile. `RealtimeCursor.TheCursorMovesBack` is such a run, from 2 to 1. From any state
  that return is the only step that can do it, and does exactly when its record lies below the cursor
  (`MovesBackExactlyWhen`). In a run it happens exactly when a full resync with a barrier above the record finished
  while its dispatch was in flight (`CursorMovesBackExactlyWhen`), and then moves the cursor off the last barrier
  (`MovesBackOffABarrier`). Delivery is still complete, which is why `NoGap` speaks of coverage.
- A byte-order mark counts as an identifier character for the scanner, but the space that replaces it does not. Right
  in front of a dollar tag or of `e'` / `E'` the executed text can therefore be read differently from the checked one.
  It can even hold a top-level `COMMIT` that the check did not see: `SqlCleanup.AcceptedTextThatCommits` is such a
  text with a dollar tag, `EscapeHidesACommit` has one with `e'`, and `PlainTextsStayPlainExactlyWhen` says which
  leading runs allow it. The server executes nothing of it: it begins with a string constant, which is refused as a
  whole (`ExecutedFormIsSafe`).
- `dollar` prints a literal that is not read back exactly when the text ends in the chosen tag without its last `$`
  (`SqlLiterals.DollarIsReadBack`). For the text `$po` it prints `$po$$po$po$`, which is read as an empty string
  followed by `po$` (`ATagTailBreaksTheQuote`).

A remark on resuming: a log whose latest sequence were neither a stored row nor the pruned mark could leave a client
asking again from where it stands (`RealtimeReplay.StuckExactlyWhen`). No reachable log is like that.

Text is modelled as Unicode scalar values. White space, identifier characters, `trim` and upper case follow
JavaScript.

## Model

| member | source | states |
|---|---|---|
| RealtimeHistory.NoGap | src/sockets/sockeServer.ts:1198-1245 | in every interleaving, each stored record between the start and the cursor is covered in one of two ways. Either a full-resync barrier at or above it finished: that barrier ended the log at one moment, its recipients are the sockets connected at a later one, when the read came back, and every socket connected at either moment was notified or is cut off. Or its dispatch completed: at some moment of the run the record was stored and the runtime ready, and every socket connected then was in no target room, got it, had it already, was denied each target room it was in by an answer of the run, or is cut off |
| RealtimeHistory.PrefixRemembers | src/sockets/sockeServer.ts:1053-1291 | in every state of every run, each barrier ended the log at a moment of the run and its recipients are the sockets connected at a moment not before it, the audience of each live dispatch and completion those connected at its capture with their rooms, and each denied room was denied by an answer |
| RealtimeSafety.HealthFence | src/sockets/sockeServer.ts:1265-1334 | every durable event is emitted while the runtime is ready, and no backstop outage began between capturing the generation, authorizing the recipient and emitting, for any number of outages and recoveries |
| RealtimeSafety.AtMostOnceInAWindow | src/sockets/sockeServer.ts:1279-1330 | a socket gets an event id twice only if at least 2048 deliveries of other, pairwise different events to it lie in between, for any mix of live retries and replays |
| RealtimeSafety.StepKeepsInv | src/sockets/sockeServer.ts:1181-1345 | every action of runtime and outside world keeps the delivery invariant: fenced fan-outs, unseen pending recipients, coverage up to the cursor, barrier recipients notified or gone |
| RealtimeSafety.RunKeepsInv | src/sockets/sockeServer.ts:1181-1345 | the delivery invariant holds after every run |
| RealtimeCursor.CursorMovesBackExactlyWhen | src/sockets/sockeServer.ts:1220-1233 | in every run, an action moves the cursor back if and only if it is the return of a dispatch that went well and a full resync finished while that dispatch was in flight, taking the cursor from at or below its record to a barrier above it |
| RealtimeCursor.MovesBackOffABarrier | src/sockets/sockeServer.ts:1089-1092 | in every reachable state, a step that moves the cursor back moves it off the last finished barrier, onto the record whose dispatch has completed |
| RealtimeCursor.MovesBackExactlyWhen | src/sockets/sockeServer.ts:1220-1233 | from any state, reachable or not, and for every action: the cursor moves back if and only if the action is the return of a dispatch that went well and its record lies below the cursor |
| RealtimeCursor.TheCursorMovesBack | src/sockets/sockeServer.ts:1220-1233 | a run from an empty log in which the cursor goes from 2 back to 1 |
| RealtimeRuntime.RealtimeSocketRuntime.SuspendAuthorizationForBackstopOutage | src/sockets/sockeServer.ts:569-588 | closes the fence first, opens a new generation only on a real transition, then disconnects every connected socket, one by one; keeps the delivery invariant |
| RealtimeRuntime.RealtimeSocketRuntime.ContinueBatch | src/sockets/sockeServer.ts:1220-1237 | the loop skips rows the cursor has passed and queues exactly one dispatch, or finishes the batch |
| RealtimeRuntime.RealtimeSocketRuntime.BarrierFinished | src/sockets/sockeServer.ts:1073-1092 | once every recipient has answered, cuts off the unreachable ones, one by one, then moves the cursor forwards only; keeps the delivery invariant |
| RealtimeRuntime.RealtimeSocketRuntime.HealthCaptured | src/sockets/sockeServer.ts:1269-1287 | after the backstop check: the loop over targets refuses a malformed one, an unready runtime is refused, else audience and generation are fixed; keeps the delivery invariant |
| RealtimeRuntime.RealtimeSocketRuntime.RecipientAuthorized | src/sockets/sockeServer.ts:1320-1333 | fence, emission and remembered id in one step; keeps the delivery invariant |
| RealtimeRuntime.RealtimeSocketRuntime.RememberDelivered | src/sockets/sockeServer.ts:1323-1330 | the window keeps the last 2048 ids in insertion order, oldest evicted first |
| RealtimeReplay.ReplayWindow | src/sockets/sockeServer.ts:1356-1396 | the one-query branch ends at once when health is lost behind its read, refuses a cursor outside the history with both errors, else dispatches the first 2000 records above it up to the first that throws or finds health lost in front of it, and acknowledges them if there is none |
| RealtimeReplay.ReplayBatched | src/sockets/sockeServer.ts:1397-1443 | the batched branch meets the same specification with its own checks, one behind each read of a batch |
| RealtimeReplay.BranchesAgree | src/sockets/sockeServer.ts:1356-1443 | on one log and with the same things happening, the one-query branch dispatches a prefix of what the batched one does; while health holds, records, failure, last sequence and truncated flag are the same |
| RealtimeReplay.TruncatedMeansProgress | src/sockets/sockeServer.ts:1437-1443 | on a log whose latest sequence is a stored record, a truncated answer has moved the client on and any other is complete |
| RealtimeValidation.ValidatedLatestSequence | src/shared/realtime/realtime-control-plane.ts:842-925 | the loops over reads and rows leave the log alone and answer its latest sequence if and only if no number between the pruned mark and it is missing or unreadable; otherwise they put a barrier above everything |
| RealtimeValidation.ValidationRepairs | src/shared/realtime/realtime-control-plane.ts:842-925 | whatever was damaged, afterwards the log is whole, only the barrier was added, everything stored before lies below it, and validating again changes nothing |
| RealtimeValidation.LogsStayGapless | src/shared/realtime/realtime-control-plane.ts:662-680 | publication, remediation and pruning never open a gap above the pruned mark |
| RealtimeReplay.LogsStayAnchored | src/shared/realtime/realtime-control-plane.ts:793-808 | whatever is published, remediated and pruned, the latest sequence is a stored row or the pruned mark |
| RealtimeReplay.ResumingVisitsEverything | src/sockets/sockeServer.ts:1347-1443 | on the log of every reachable state, resuming from the returned sequence terminates and visits every record above the first cursor, once, in order |
| RealtimeReplay.StuckExactlyWhen | src/sockets/sockeServer.ts:1437-1443 | a resume makes no progress exactly when nothing is stored above the cursor yet the latest sequence lies there |
| RoomIntents.InRoomExactlyWhen | src/sockets/sockeServer.ts:800-870 | for any burst: outside an answer in progress, the socket is in a client room exactly when the last request for it acknowledged ok was a subscribe and the server has not withdrawn it |
| RoomIntents.AcksTellMembership | src/sockets/sockeServer.ts:800-870 | absent revocation and disconnection, the acknowledgements alone determine membership |
| RoomIntents.NeverOverbooked | src/sockets/sockeServer.ts:829-838 | a socket never holds more than 64 rooms, its private ones included |
| RoomIntents.AnsweredInOrder | src/sockets/sockeServer.ts:797-870 | requests are answered at most once, in arrival order, and none is lost |
| RoomIntents.OkMeansNewest | src/sockets/sockeServer.ts:815-846 | in every run, each subscribe that was acknowledged ok was answered at a moment when no newer request for its room had arrived, with the socket in the room unless the server has just withdrawn it |
| SqlScanner.TopLevelSqlStatements | scripts/db-patches.js:273-370 | the scanning loop terminates on every text and finds exactly the statements of the token-by-token specification |
| SqlScanner.NextToken | scripts/db-patches.js:285-343 | the loops over comments, nested comments, strings and identifiers, and the dollar-quote search, find the end of the token |
| SqlStatements.ScanIsWellFormed | scripts/db-patches.js:273-370 | statements are non-empty, in order and disjoint; tokens tile the text, and every one outside a statement is white space, a byte-order mark, a comment or a bare semicolon |
| SqlStatements.OpenStatement | scripts/db-patches.js:345-368 | a statement that has begun is always emitted, at its semicolon or with the end of the text |
| SqlLocality.TokenReads | scripts/db-patches.js:189-196 | a token depends on its own text, one character behind it, and the two characters before it, and on nothing else |
| SqlUnwrap.BlankRemoves | scripts/db-patches.js:390-394 | blanking any one statement removes exactly that statement from the scan; all others keep start, end and text |
| SqlPatch.UnwrappingPreservesTheProgram | scripts/db-patches.js:396-421 | an accepted text, unwrapped and scanned again, has exactly the original statements without the outer pair, and no transaction control is left |
| SqlPatch.AcceptedExactlyWhen | scripts/db-patches.js:396-421 | a text is accepted if and only if it has no top-level transaction control or is wrapped in exactly one outer pair |
| SqlPatch.LayoutSurvives | scripts/db-patches.js:390-421 | length and line ends survive; changes lie inside the two control statements or are leading byte-order marks |
| SqlPatch.SanitizeLeadingBom | scripts/db-patches.js:179-187 | the loop replaces every byte-order mark of the leading white space by a space |
| SqlPatch.SanitizedChanges | scripts/db-patches.js:179-187 | and nothing else: position by position |
| SqlCleanup.CleanupIsHarmlessExactlyWhen | scripts/db-patches.js:179-196 | a leading run can be cleaned up without effect on any continuation if and only if it does not end in a byte-order mark |
| SqlCleanup.CleanupIsHarmless | scripts/db-patches.js:179-196 | for a given text the clean-up has no effect on the statements unless the run ends in a byte-order mark right before a dollar tag or an E string |
| SqlCleanup.PlainTextsStayPlainExactlyWhen | scripts/db-patches.js:179-196 | a leading run lets no transaction control appear in the executed form of any accepted plain text if and only if it does not end in a byte-order mark |
| SqlCleanup.AcceptedTextThatCommits | scripts/db-patches.js:396-421 | an accepted text whose executed form has a COMMIT at the top level, behind a string constant |
| SqlCleanup.EscapeHidesACommit | scripts/db-patches.js:179-196 | behind every leading run that ends in a byte-order mark stands an accepted plain text beginning with an E string whose executed form controls the transaction |
| SqlCleanup.AnEscapeStringLetsACommitOut | scripts/db-patches.js:179-196 | that text is one statement as it stands and two when cleaned up, the second of them a COMMIT, each with its exact bounds |
| SqlCleanup.ExecutedFormIsSafe | scripts/db-patches.js:396-421 | for every patch: refused exactly when its transaction control is not one outer pair; otherwise the executed form has the patch's length, and controls no transaction or begins with a string constant |
| SqlCleanup.SqlWithoutOuterTransaction | scripts/db-patches.js:396-421 | scanning, selecting the controls, blanking the pair and cleaning up give exactly that form |
| SqlOpaque.QuotedTextIsOpaque | scripts/db-patches.js:285-343 | changing characters inside a string, quoted identifier, dollar quote or comment that still ends at the same index leaves every statement's start, end and text unchanged (sections 4.1.2 and 4.1.5 of the PostgreSQL manual) |
| SqlLiterals.LitIsReadBack | scripts/project-office/populate-cerp-project.ts:38-41 | the scanner takes exactly the printed literal as one string, and undoubling its inside gives the value |
| SqlLiterals.DollarQuote | scripts/project-office/populate-cerp-project.ts:43-49 | the tag search terminates for every text and stops at the first tag that does not occur in it |
| SqlLiterals.DollarIsReadBack | scripts/project-office/populate-cerp-project.ts:43-49 | where the literal is closed and which value is read back, for every text; it is the whole literal, and the whole text, if and only if the text does not end in the chosen tag minus its last `$` (section 4.1.2.4 of the PostgreSQL manual) |
| SqlLiterals.OneTagPerPosition | scripts/project-office/populate-cerp-project.ts:43-49 | distinct tags occur at distinct positions, which bounds the search |
| SqlLiterals.ATagTailBreaksTheQuote | scripts/project-office/populate-cerp-project.ts:43-49 | for `$po` the literal is closed after 8 of its 11 characters and an empty string is read |
| MigrationLedger.RunsApplyAPrefix | scripts/db-patches.js:575-642 | over any interleaving of runs, failures and crashes, the patches pending at the start take effect one by one in inventory order, each with its ledger row |
| MigrationLedger.LedgerMeansEffects | scripts/db-patches.js:568-595 | a ledger row exists exactly when that patch's effects are committed |
| MigrationLedger.NothingTwice | scripts/db-patches.js:575-642 | no patch takes effect twice |
| MigrationLedger.MismatchStopsEverything | scripts/db-patches.js:620-629 | any checksum mismatch means that no run ever changes anything |
| MigrationLedger.SuccessIsFinal | scripts/db-patches.js:620-641 | once a run has ended well everything pending is applied, and later runs apply zero |
| MigrationLedger.ExecutedTextStaysInside | scripts/db-patches.js:575-586 | whatever the server executes of any patch leaves the surrounding transaction alone |
| MigrationLedger.HiddenCommitChangesNothing | scripts/db-patches.js:575-595 | the accepted text with a hidden COMMIT ends its run in a failure and changes nothing |
| MigrationLedger.PendingOfGrown | scripts/db-patches.js:454-470 | after a prefix of the pending patches has rows, the rest is pending, in the same order |
| MigrationRunner.MigrationClient.ApplyPatch | scripts/db-patches.js:575-595 | effects and row are committed together or not at all; refused or already recorded patches change nothing; exactly when it reports success |
| MigrationRunner.MigrationClient.RunUp | scripts/db-patches.js:597-642 | the loop applies a prefix of the pending list, the whole list on success, nothing on a checksum mismatch |
| DecimalMoney.DecimalRoundTrip | src/module/facturation/domain/decimal-money.ts:9-35 | printing an amount and parsing it back is exact for every amount and every number of decimals |
| AccountingBalance.DocumentConserves | src/module/accounting-export/accounting-export.domain.ts:93-234 | a document without a finding has debits and credits that both sum to its total including tax, in its own currency only |
| AccountingBalance.UnbalancedOnlyWithDocumentFinding | src/module/accounting-export/accounting-export.domain.ts:236-279 | the batch-unbalanced blocker only ever appears alongside a document-level finding |
| AccountingBalance.LinesAreNumbered | src/module/accounting-export/accounting-export.domain.ts:177-253 | the lines of all documents are numbered from one without gaps |
| AccountingBalance.AdvancingPreview | src/module/accounting-export/accounting-export.domain.ts:305-310 | a preview that can advance is not empty, has nothing claimed, one-sided lines and balanced currencies |
| AccountingBuilder.BuildSource | src/module/accounting-export/accounting-export.domain.ts:139-234 | the loop over the tax breakdown builds the lines and findings of one document |
| AccountingBuilder.CheckLines | src/module/accounting-export/accounting-export.domain.ts:254-271 | the totals map holds both sums of every currency; the findings are those of one-sided and balanced lines |
| AccountingBuilder.BuildAccountingPreview | src/module/accounting-export/accounting-export.domain.ts:236-279 | the whole build meets its specification |
| AccountingFile.CellIsReadBack | src/module/accounting-export/accounting-export.domain.ts:281-284 | every printed cell is read back as its value, whatever it contains |
| AccountingFile.FileRoundTrip | src/module/accounting-export/accounting-export.domain.ts:291-303 | for each allowed delimiter, reading the rendered text under section 2 of RFC 4180 gives the header and exactly the 11 cells of every line |
| AccountingSafety.ExclusiveExport | src/module/accounting-export/accounting-export.repository.ts:319-412 | over all runs by any actors, unreleased claims are exactly the documents of the generated batches, and two generated batches never share one |
| AccountingSafety.FilesAreTrueAndBalanced | src/module/accounting-export/accounting-export.repository.ts:319-372 | in any reachable state, reading a generated batch's file gives row by row the lines that were computed at its generation from the documents of that moment, and per currency the debit and credit columns add up alike |
| AccountingSafety.TheBuilderBalances | src/module/accounting-export/accounting-export.domain.ts:236-310 | the builder of the repository meets the assumption of the end-to-end theorem, whatever the order of documents |
| AccountingSafety.GeneratedFromCurrentDocuments | src/module/accounting-export/accounting-export.repository.ts:331-372 | in every trace, each generated batch was generated by one of its commands, and holds the documents the tables gave then and the lines computed from them then |
| AccountingSafety.BatchesMoveForward | src/module/accounting-export/accounting-export.repository.ts:331-412 | over any continuation of any trace a batch keeps its evidence and moves only previewed, validated, generated, cancelled, the version counting the moves |
| AccountingSafety.ClaimingAll | src/module/accounting-export/accounting-export.repository.ts:351-360 | claiming succeeds exactly when no document is claimed, and adds exactly the batch's documents |
| AccountingSafety.TraceKeeps | src/module/accounting-export/accounting-export.repository.ts:210-412 | the books' invariant holds after every trace of commands, retries and outside changes |
| AccountingSafety.RetriesChangeNothing | src/module/accounting-export/accounting-export.repository.ts:66-102 | dropping the later copies of successful commands leaves books and receipts as they are |
| AccountingRepository.Repository.PersistNewPreview | src/module/accounting-export/accounting-export.repository.ts:210-255 | checks the mapping, builds the preview and stores it with its entries, or changes nothing; keeps the books' invariant |
| AccountingRepository.Repository.InsertClaims | src/module/accounting-export/accounting-export.repository.ts:352-360 | claims every document or, on the first conflict, rolls all claims back |
| AccountingRepository.Repository.GenerateCommand | src/module/accounting-export/accounting-export.repository.ts:319-372 | claims, file and status change together or not at all; keeps the books' invariant |
| AccountingRepository.Repository.Handle | src/module/accounting-export/accounting-export.repository.ts:66-102 | receipt lookup, command and receipt in one transaction, as the receipt protocol says; keeps the books' invariant |
| IdempotentCommands.CopiesChangeNothing | src/module/accounting-export/accounting-export.repository.ts:66-102 | for any trace, the final state equals that of the trace without later copies of successful commands |
| IdempotentCommands.LaterRequests | src/module/identification/identification.repository.ts:251-261 | after a success under a key, a copy gets the first result and other content is refused; neither changes anything |
| IdempotentCommands.FailuresLeaveNothing | src/module/identification/identification.repository.ts:263-269 | for any trace, dropping every command that failed, was refused or was replayed leaves data and receipts as they are |
| IdempotentCommands.ReceiptsAreSuccesses | src/module/accounting-export/accounting-export.repository.ts:87-102 | every receipt stems from a success with that key, content and result |
| LabelChains.LabelChainsAreSound | src/module/identification/identification.service.ts:160-260 | in every reachable state each entity has at most one active label, only replaced labels have a successor, and following successors stays on the entity, never meets a label twice and ends at an active or invalidated one |
| LabelChains.NeverActiveAgain | src/module/identification/identification.service.ts:219-260 | a label that is no longer active never changes again |
| LabelChains.ReprintsAreExplained | src/module/identification/identification.service.ts:194-217 | only a label's first print is a print; every later one is a reprint with a reason |
| LabelChains.RetriesChangeNothing | src/module/identification/identification.repository.ts:251-269 | dropping the later copies of successful commands leaves labels, prints and receipts as they are |
| LabelRegistry.CanonicalIsStable | src/module/identification/identification.repository.ts:80-165 | looking an entity up under the identifier it was found with finds the same entity |
| LabelRegistry.ExecuteKeeps | src/module/identification/identification.service.ts:160-260 | every command keeps the life cycle of labels and the order of prints |
| LabelService.Service.InsertNewLabel | src/module/identification/identification.repository.ts:193-218 | inserts an active label unless a unique index refuses it |
| LabelService.Service.ReplaceCommand | src/module/identification/identification.service.ts:239-260 | withdraws, inserts and ties together, or rolls everything back; keeps the life cycle of labels |
| LabelService.Service.Handle | src/module/identification/identification.repository.ts:65-78 | rights, receipt, command and receipt in one transaction, as the receipt protocol says; keeps the life cycle of labels |
| LabelScans.SyncOffline | src/module/identification/identification.service.ts:344-356 | the loop over a batch is the run of its readings, each resolved in the world it meets, with the counts of resolved and rejected; an event id that belongs to another attempt aborts the rest |
| LabelScans.ResentBatch | src/module/identification/identification.service.ts:305-356 | a batch sent again, whatever the world has become, gives every reading its first finding as a replay and changes nothing |
| LabelScans.FirstFindingStands | src/module/identification/identification.service.ts:262-310 | over any run of scans each event id is decided once, in the world its first scan met; that finding answers every later scan that is the same attempt, and any other use of the id is refused |
| LabelScans.ResolvedExactlyWhen | src/module/identification/identification.service.ts:305-342 | in any run, a scan is answered as resolved exactly when the first scan of its event id was the same attempt and passed clock, payload, label, flow, rights, entity and status then |
| LabelScans.PayloadRoundTrip | src/module/identification/domain/identification.ts:109-120 | a printed payload is read back as the public identifier in lower case |

## Left out

- Startup retries, `stop`, timers, LISTEN/NOTIFY, metrics and logging of the realtime runtime: only their effect on state (a drain requested, a check begun, connected or not) is modelled.
- The control plane: a specified log stands for it; reads are contiguous and ascending, rows never appear below a visible sequence, and a cursor below the pruned mark is refused.
- RealtimeReplay.LogsStayAnchored: the deletion of a row found unreadable is not modelled; the barrier put above it makes it unreadable for everyone.
- JWT checks, token expiry and presence: whether an account answers active, inactive or with an error is an input of each step. Sockets of one user sharing one account load are modelled as loading separately, which allows more interleavings.
- Invalid subscription payloads, which are refused before they reach the queue; room names are taken as canonical.
- That every drain request leads to a later drain: the poll timer is the backstop and time is not modelled.
- Positions count Unicode scalar values, not UTF-16 units; the two differ for characters outside the basic plane.
- The `baseline` and `status` commands, `--only`, dry runs and the realtime provenance check of the migration script; the order of patch names is the inventory's.
- PostgreSQL itself. What it executes is read with the script's own scanner, and one fact about it is assumed: it parses a whole text before it executes any of it, and no SQL command begins with a string constant. `MigrationLedger.ServerRefuses` is that fact; everything else about a text, its success included, is an input of each step.
- AccountingDomain models amounts as integer cents and rates as ten-thousandths, because the SQL delivers them as exact decimals; malformed amounts cannot occur there. Text appears again in the file, and DecimalMoney proves the conversion exact.
- RealtimeReplay.ReplayWindow: begins behind the account check of the replay, whose answer is not modelled.
- RealtimeReplay.ReplayBatched: all its reads see one log; what is published or pruned between two of them is not modelled.
- AccountingBuilder.BuildAccountingPreview: takes the documents in the order they are built; their sorting, and that of the totals, is not modelled.
- The order in which documents are built and totals are listed depends on the locale; the theorems hold for every order. Totals are checked in order of first appearance.
- Hashes are compared by what they hash; audit rows, batch numbers, timestamps and mapping creation are not modelled. Axes enter as their canonical JSON text, UTF-8 encoding of the file is not modelled.
- AccountingStore treats each command as one atomic transaction that commits or changes nothing.
- Printing re-reads the label after its transaction to draw the barcode; the receipt protocol covers the recorded part of the answer only. Human codes and status words of entities are inputs.
- LabelScans.SyncOffline: each reading is decided in one snapshot of labels, rights and entities, where the service reads them one after the other.
- LabelScans does not model the message texts and routes of a scan result.
- A request with a malformed key from an actor without rights is refused for its key here and for the rights in the label service; neither changes anything.
