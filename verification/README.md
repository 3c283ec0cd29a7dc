# Verified models of XenoClaw's stateful cores

XenoClaw is a self-hosted agent platform written in Rust. This project models the parts of it whose
correctness spans whole runs rather than single calls, and proves what those parts are for:

- **Undoable file operations** (`FileStore`, `UndoHistory`, `UndoProperties`, `FileEffects`). Tracked creates, writes,
  edits and deletes push inverse operations on a bounded history. Over every interleaving of operations,
  undos, evictions and I/O failures, undo is an exact inverse at every point if and only if no create of
  the run overwrites a file. Undo composes, can be resumed after a failure, and the file size limit is an
  invariant of all runs.
- **Structured logger** (`StructuredLogger`, `LoggerProperties`, `LoggerDisk`, `LoggerEffects`). Under every pattern of write, rename and
  reopen failures each accepted entry is written once, buffered or evicted, never two of these. Emission
  order holds throughout a run if and only if no entry is written while older ones wait in the buffer, and
  written entries stay on disk if and only if no rotation takes the name of a file that holds entries. The
  exact condition for the file size limit is proved too.
- **Shell admission** (`ShellAdmission`). Any number of calls interleave at their loads,
  compare-exchanges and releases of one atomic counter. The counter is exact, bounded and never
  underflows, and the retry loop is lock-free with a bounded number of retries.
- **Session contexts** (`SessionManager`, `SessionProperties`, `SessionCalls`, `SummaryText`). In every interleaving of the lock-protected
  steps a context is a window on the log of pushed messages, with a token total that is exact modulo 2^32,
  if and only if no summarisation cuts through a character; and the total is the true sum if and only if,
  in addition, no sum of the run reaches 2^32. With calls split into push, check and summarisation, an
  idle session is within 80% of the limit or down to eleven messages if and only if no restore pushes it
  over without a check. A summary has constant size.
- **LSP framing** (`Decimal`, `LspFraming`, `LspProperties`, `LspErrors`, `Utf8`). Reader and writer of the header part of the
  Language Server Protocol 3.17 base protocol undo each other on every stream.
- **Unified diffs** (`UnifiedDiff`, `DiffProperties`, `ChangeTracker`, `DiffLayout`). Hunks reproduce the lines
  of the new text, and backwards those of the old one, and the text itself if and only if all its lines
  end with a newline (for a text whose only line ends are newlines: if it is empty or ends with one);
  cumulative diffs span a session; rendered line numbers are true and
  sections never overlap.
- **Tools and plugins** (`ToolRegistry`, `PluginLoader`, `PluginEffects`, `PluginInterleaving`). Table, index and published
  events agree in every reachable state; unloading is exact. With each loader call as one step, the plugin
  lifecycle is exact if and only if every accepted tool is registered for a loaded plugin and every
  accepted handler through the installed handle. With loads, unloads and handler registrations split at
  their locks and overlapping in any way, it is exact if and only if no two calls clash on one plugin and no
  registration is accepted after the unload of its plugin has cleared that kind of registration.
- **Fallback store** (`SessionFallback`, `FallbackRuns`). Saves, restores and retry loops are split at their
  waits and overlap in any way. While the store counts as available, the database has the cached state of
  every session that is not being saved, if and only if no save writes after being overtaken, no pass
  writes an outdated copy, and no pass ends well after missing a save.
- **Smaller loops** (`LlmRouter`, `MessageLoop`). Failover picks the first healthy
  provider by priority and position, and the tool-call loop is bounded and its transcript faithful.

Operations that change state in place are classes whose methods are proved equal to a function on
values; lemmas describe what each function does without its definition, result by result and error by
error; runs are sequences of such functions, and the properties of runs are lemmas. Text is modelled as
its UTF-8 bytes, one `char` per byte. Disks, models, tools and databases are inputs that answer in every
possible way.

Where the code does not meet the property one would expect, the code is modelled as it is, a run shows
the failure, and the exact condition is proved: overwriting creates, a failed write after a reopen, a
rotation onto an existing name, a flush past the size limit, a summary cut inside a character, totals that
wrap, a restore without a check, stale plugin handles, clashing loads and unloads, a tool registered
during an unload, overlapping saves, a save during a flush, and a cut-off frame with an empty body. Sums
of token counts wrap, as in a build without overflow checks. Two remarks on documentation: `UndoHistory` is documented to keep at most
`capacity` entries, but at capacity 0 it keeps one; and the header name is compared case-sensitively
(`LspProperties.LowerCaseIsIgnored`), whereas the protocol follows HTTP, where it is not.

## Model

| member | source | states |
|---|---|---|
| FileStore.FindFrom | crates/coding-module/src/file_ops.rs:210-217 | the edit finds the first occurrence, and none only if there is none |
| FileStore.ReplaceBack | crates/coding-module/src/file_ops.rs:217 | replacing the first occurrence can be reversed at the same place |
| UndoHistory.FileOperations.CreateFile | crates/coding-module/src/file_ops.rs:108-131 | size limit, sandbox and I/O errors in the code's order; an existing file is overwritten |
| UndoHistory.FileOperations.WriteFile | crates/coding-module/src/file_ops.rs:187-198 | both size checks, sandbox and I/O errors in the code's order; failure changes nothing |
| UndoHistory.FileOperations.EditFile | crates/coding-module/src/file_ops.rs:203-227 | first-occurrence replacement with all error cases; failure changes nothing |
| UndoHistory.FileOperations.DeleteFile | crates/coding-module/src/file_ops.rs:230-238 | removes an existing file; a missing one is an error |
| UndoHistory.TrackedFileOperations.RecordEntry | crates/coding-module/src/undo_history.rs:102-107 | the history after recording, eviction at capacity included |
| UndoHistory.TrackedFileOperations.CreateFile | crates/coding-module/src/undo_history.rs:264-275 | files and history after a tracked create, or nothing changed and the error |
| UndoHistory.TrackedFileOperations.WriteFile | crates/coding-module/src/undo_history.rs:280-294 | files and history after a tracked write, or nothing changed and the error |
| UndoHistory.TrackedFileOperations.EditFile | crates/coding-module/src/undo_history.rs:297-316 | files, history and returned content after a tracked edit, or nothing changed and the error |
| UndoHistory.TrackedFileOperations.DeleteFile | crates/coding-module/src/undo_history.rs:319-332 | files and history after a tracked delete, or nothing changed and the error |
| UndoHistory.TrackedFileOperations.UndoNewest | crates/coding-module/src/undo_history.rs:138-156 | one undo attempt; on failure the entry is back on top |
| UndoHistory.TrackedFileOperations.UndoLast | crates/coding-module/src/undo_history.rs:133-158 | the loop equals the recursive undo, world and reports, for every fault pattern |
| UndoProperties.PerformSucceedsIff | crates/coding-module/src/undo_history.rs:264-332 | the exact conditions under which each tracked operation succeeds |
| FileEffects.PerformEffect | crates/coding-module/src/undo_history.rs:264-332 | the files and the recorded entry after each tracked operation: the new content stored, the first occurrence replaced, the file removed, and no other file changed |
| FileEffects.PerformFailsWith | crates/coding-module/src/undo_history.rs:264-332 | the exact condition for each error of each tracked operation, in the order of the checks |
| FileEffects.ApplyEffect | crates/coding-module/src/undo_history.rs:102-107 | a successful operation adds exactly its entry to the newest ones kept; a failing one changes nothing |
| FileEffects.UndoEffect | crates/coding-module/src/undo_history.rs:161-205 | an undo fails only for an I/O error or a created file that is gone, restores its file and touches no other |
| FileEffects.CreateEffect | crates/coding-module/src/file_ops.rs:108-131 | result and files of a create, error by error |
| FileEffects.WriteEffect | crates/coding-module/src/file_ops.rs:187-198 | result and files of a write, error by error; it needs no existing file |
| FileEffects.EditEffect | crates/coding-module/src/file_ops.rs:203-227 | result of an edit, error by error; on success the first occurrence is replaced |
| FileEffects.DeleteEffect | crates/coding-module/src/file_ops.rs:230-238 | result and files of a delete, error by error |
| UndoProperties.RecordKeepsNewest | crates/coding-module/src/undo_history.rs:102-107 | exactly the newest min(n, max(capacity, 1)) entries are kept |
| UndoProperties.UndoOneIffFresh | crates/coding-module/src/undo_history.rs:161-205 | undoing one operation restores the files iff it was not a create over an existing file |
| UndoProperties.UndoReachesSnapshot | crates/coding-module/src/undo_history.rs:133-158 | every undo ends at an earlier snapshot, and short of the requested one only for an I/O fault |
| UndoProperties.ExactIffNeverOverwrites | crates/coding-module/src/undo_history.rs:102-332 | over every run of operations, undos, evictions and failures, undo is exact at every point iff no successful create of the run overwrites a file |
| UndoProperties.UndoIsInverse | crates/coding-module/src/undo_history.rs:102-332 | over every run without an overwriting create: entries are a bounded suffix of the operation stack and undo(k) restores the snapshot min(k, len) operations back |
| UndoProperties.UndoExactIffFresh | crates/coding-module/src/undo_history.rs:161-172 | all undo depths are exact iff no retained create overwrote a file |
| UndoProperties.OperationsAreUndoneIffFresh | crates/coding-module/src/undo_history.rs:264-332 | after any run of operations, failing and overwriting ones included, and of undos that stay above the overwriting creates, undo is exact iff no retained create overwrote a file |
| UndoProperties.OverwrittenFileIsLost | crates/coding-module/src/file_ops.rs:126-127 | a concrete create over an existing file whose undo loses the file |
| UndoProperties.UndoComposes | crates/coding-module/src/undo_history.rs:133-158 | undo(a) then undo(b) is undo(a+b), reports included, for any failures in the second part |
| UndoProperties.UndoResumes | crates/coding-module/src/undo_history.rs:150-154 | a failed undo reports successes and one failure, keeps the failed entry on top, and a later undo ends where an uninterrupted one would |
| UndoProperties.RunKeepsLimit | crates/coding-module/src/file_ops.rs:63-92 | no file ever exceeds the size limit in any run, undos included |
| StructuredLogger.Logger.constructor | crates/common/src/logging.rs:172-207 | the initial state for every outcome of creating the directory and opening the file |
| StructuredLogger.Logger.BufferEntry | crates/common/src/logging.rs:336-341 | the buffer after appending, the oldest entry dropped when full |
| StructuredLogger.Logger.TryRecoverFs | crates/common/src/logging.rs:344-355 | state after a reopen attempt |
| StructuredLogger.Logger.FlushBuffer | crates/common/src/logging.rs:358-378 | the loop equals the recursive flush for every pattern of write failures |
| StructuredLogger.Logger.RotateLogFile | crates/common/src/logging.rs:381-403 | state and disk after a rotation that may fail at the rename or the reopen |
| StructuredLogger.Logger.Write | crates/common/src/logging.rs:270-333 | the whole write path: rotation, direct write, recovery, buffering |
| StructuredLogger.Logger.ForceFlushBuffer | crates/common/src/logging.rs:451-462 | the forced flush, and success exactly with an empty buffer and a usable file |
| LoggerProperties.FlushMovesPrefix | crates/common/src/logging.rs:358-378 | a flush moves a prefix of the buffer, and leaves the file open only with an empty buffer |
| LoggerProperties.WriteEffect | crates/common/src/logging.rs:270-341 | the four possible effects of a call on written, buffered and evicted entries; eviction only of the oldest and only when full |
| LoggerProperties.WriteKeepsFile | crates/common/src/logging.rs:279-332 | the tracked size stays the real file length, a logger with an open file is available, and an open file means an empty buffer unless the write after a reopen failed |
| LoggerProperties.RotationKeepsFiles | crates/common/src/logging.rs:381-403 | the rotated file keeps its entries and older bytes under its new name, and no file but that of the new name changes |
| LoggerProperties.DirectWriteWithinLimit | crates/common/src/logging.rs:281-290 | before the buffer is flushed, a direct write exceeds the size limit only in a file opened by the same call |
| LoggerEffects.StartEffect | crates/common/src/logging.rs:172-220 | a new logger opens its file behind what it held, with its length as size, and changes no file |
| LoggerEffects.RecoverEffect | crates/common/src/logging.rs:344-355 | a reopen does the same and keeps the buffer; a failed one changes nothing |
| LoggerEffects.FailedRotation | crates/common/src/logging.rs:381-403 | a failed rename only closes the file; a failed reopen comes after the rename |
| LoggerEffects.FlushAppends | crates/common/src/logging.rs:358-378 | a flush appends the buffer in order up to the first failing write, which closes the file and clears the flag |
| LoggerEffects.ForceFlushAppends | crates/common/src/logging.rs:451-462 | a forced flush puts the whole buffer behind what the open or reopened file held |
| LoggerEffects.WriteWithRoom | crates/common/src/logging.rs:279-308 | with room for the line within the configured mebibytes there is no rotation, and entry and buffer go to the end of the open file |
| LoggerEffects.WriteWithoutRoom | crates/common/src/logging.rs:281-290 | without room the old file is kept under its new name and the entry starts a new file |
| LoggerEffects.FailedWrite | crates/common/src/logging.rs:307-313 | a failing write closes the file, clears the flag and buffers the entry |
| LoggerEffects.WriteWithoutFile | crates/common/src/logging.rs:315-341 | without a file the entry is buffered, the oldest one evicted when full |
| LoggerEffects.WriteAfterReopen | crates/common/src/logging.rs:319-328 | after a reopen the buffer and then the entry go behind what the file held |
| LoggerDisk.RotatePreservesIff | crates/common/src/logging.rs:381-403 | a rotation keeps every written entry on disk iff it does not rename the log onto another file that holds entries |
| LoggerDisk.EntriesStayIffNoClobber | crates/common/src/logging.rs:270-403 | over every run and failure pattern, each written entry stays on disk iff no rotation renames onto a file that holds entries |
| LoggerDisk.SameNameLosesEntry | crates/common/src/logging.rs:386-393 | runs of three calls from the start in which two rotations take the same name and the first entry is lost from disk |
| LoggerDisk.WriteWithinLimitIff | crates/common/src/logging.rs:270-378 | the file open after a call is within the size limit iff the file the call goes on with has room for the whole buffer and the entry |
| LoggerDisk.DrainedWriteWithinLimit | crates/common/src/logging.rs:279-308 | with an empty buffer and no rotation the open file stays within the limit |
| LoggerDisk.FlushIgnoresLimit | crates/common/src/logging.rs:319-378 | a concrete run from the start in which a flush takes the file over the limit |
| LoggerProperties.RunConserves | crates/common/src/logging.rs:270-403 | every run keeps conservation, buffer bound, buffer order and size tracking |
| LoggerProperties.EveryEntryExactlyOnce | crates/common/src/logging.rs:172-378 | from construction on, each accepted entry is in exactly one of written, buffered, evicted |
| LoggerProperties.OrderIffNoOvertaking | crates/common/src/logging.rs:301-308 | emission order holds after every call iff no call writes directly past a non-empty buffer |
| LoggerProperties.UsableReopensKeepOrder | crates/common/src/logging.rs:319-332 | if no write fails right after a reopen, an open file means an empty buffer and order always holds |
| LoggerProperties.OrderCanBreak | crates/common/src/logging.rs:323-331 | a concrete run in which the second entry is written before the first |
| ShellAdmission.NextIsSafe | crates/coding-module/src/shell_executor.rs:203-233 | every atomic step keeps the counter exact, bounded, and each call's acquire and release single |
| ShellAdmission.AdmissionIsSafe | crates/coding-module/src/shell_executor.rs:203-233 | in every interleaving active equals the admitted and unreleased calls and never exceeds the limit |
| ShellAdmission.ReleaseNeverWraps | crates/coding-module/src/shell_executor.rs:422-440 | every release path finds a positive counter and takes exactly one |
| ShellAdmission.RejectedIffFull | crates/coding-module/src/shell_executor.rs:383-388 | a call is rejected iff the load it acts on finds the limit reached |
| ShellAdmission.FailedExchangeMeansProgress | crates/coding-module/src/shell_executor.rs:390-398 | a failed exchange means another call changed the counter since this call's load |
| ShellAdmission.RetriesAreBounded | crates/coding-module/src/shell_executor.rs:211-227 | a call retries at most twice per call ever made |
| ShellAdmission.InvokeEffect | crates/coding-module/src/shell_executor.rs:195-210 | a new call is denied iff it is not permitted; one kind looks at the counter before its loop |
| ShellAdmission.DeniedIff | crates/coding-module/src/shell_executor.rs:195-202 | a call is denied by nothing else |
| ShellAdmission.LoadEffect | crates/coding-module/src/shell_executor.rs:203-217 | a load with room lets the call go on with what it saw |
| ShellAdmission.ExchangeAdmits | crates/coding-module/src/shell_executor.rs:390-398 | an exchange that finds the loaded value admits the call and counts it once |
| ShellAdmission.FailedExchangeRetries | crates/coding-module/src/shell_executor.rs:390-398 | one that does not sends the call back to its loop and changes nothing else |
| ShellAdmission.UndisturbedCallIsAdmitted | crates/coding-module/src/shell_executor.rs:203-233 | from every safe state with room, a permitted call that nothing disturbs is admitted |
| ShellAdmission.ExitFreesSlot | crates/coding-module/src/shell_executor.rs:422-440 | every way out of an admitted call frees its slot |
| ShellAdmission.OnlyOwnSteps | crates/coding-module/src/shell_executor.rs:203-233 | a call is moved only by its own steps, and by none once it is over |
| SessionManager.Threshold | crates/agent-core/src/session_manager.rs:364-366 | the threshold is 80% of the limit, rounded down |
| SessionManager.EstimateTokens | crates/agent-core/src/session_manager.rs:543-546 | one token per four bytes, rounded up |
| SessionManager.Manager.GenerateSummary | crates/agent-core/src/session_manager.rs:482-537 | the summary text, or a panic exactly when a listed message is cut inside a character |
| SessionManager.Manager.CreateSession | crates/agent-core/src/session_manager.rs:369-386 | existing sessions are kept, new ones refused at capacity |
| SessionManager.Manager.SummarizeContext | crates/agent-core/src/session_manager.rs:419-474 | the context after summarising, drained and without summary if it panics |
| SessionManager.Manager.AddMessage | crates/agent-core/src/session_manager.rs:286-315 | the sessions after adding a message, or unchanged at capacity |
| SessionManager.Manager.AddKnowledge | crates/agent-core/src/session_manager.rs:332-346 | knowledge is appended to an existing session only |
| SessionManager.Manager.RemoveSession | crates/agent-core/src/session_manager.rs:354-356 | exactly that session is removed |
| SessionProperties.SummariseIsTidyIffNoPanic | crates/agent-core/src/session_manager.rs:419-474 | summarising yields one summary and the last ten messages with an exact total iff it does not panic, also after an earlier panic |
| SessionProperties.RunRefines | crates/agent-core/src/session_manager.rs:286-474 | in every interleaving each context is a window on its log and sessions stay within capacity |
| SessionProperties.ContextRefinesLog | crates/agent-core/src/session_manager.rs:286-474 | at every point of a run contexts are the log, or one summary and a tail of at least ten, with totals exact modulo 2^32, iff no summarisation panics |
| SessionProperties.TotalsAreTrueIff | crates/agent-core/src/session_manager.rs:286-474 | at every point of a run contexts are tidy and each total is the true sum of its counts iff no summarisation panics and no sum of counts reaches 2^32 |
| SessionProperties.TotalWrapsToZero | crates/agent-core/src/session_manager.rs:303-308 | a run of two messages after which the total is 0 and the sum of the counts 2^32 |
| SessionProperties.TotalIsTrueIff | crates/agent-core/src/session_manager.rs:303-308 | an exact total is the true sum iff that sum is below 2^32 |
| SessionProperties.StepsAreLocal | crates/agent-core/src/session_manager.rs:303-308 | other sessions are untouched, and knowledge changes only by adding to it |
| SessionProperties.SplitCharacterPanics | crates/agent-core/src/session_manager.rs:507-508 | a concrete message whose abbreviation panics |
| SessionCalls.BoundedIffNeverUnchecked | crates/agent-core/src/session_manager.rs:204-411 | in every interleaving of calls split into push, check and summarisation, each session without a call under way is within the threshold or has at most eleven messages, iff no restore pushes an idle session of more than ten messages over it |
| SessionCalls.IdleSessionsAreSmall | crates/agent-core/src/session_manager.rs:286-474 | without panics, overflows and such restores the same holds for the true sum of the counts |
| SessionCalls.RunIsSteps | crates/agent-core/src/session_manager.rs:286-474 | a run of split calls is a run of the steps under one lock, so all results on those apply to it |
| SessionCalls.UndisturbedAdd | crates/agent-core/src/session_manager.rs:286-315 | a call whose steps nothing comes between leaves the sessions that `add_message` promises, from every reachable state |
| SessionCalls.ActionEffect | crates/agent-core/src/session_manager.rs:286-356 | each action is the session step it stands for, and a check is none |
| SessionCalls.RestoresPassTheThreshold | crates/agent-core/src/session_manager.rs:229-244 | a concrete run of restores after which an idle session is over the threshold with twelve messages |
| SessionProperties.AddedIsBounded | crates/agent-core/src/session_manager.rs:395-411 | for one call by itself: after adding, the total is within the threshold or at most eleven messages remain; for the true sum of the counts the same holds iff the sum does not wrap to a small total |
| SessionProperties.AddedAppends | crates/agent-core/src/session_manager.rs:303-308 | a message that leaves the total within 80% of the limit, or at most ten messages, is appended and counted |
| SessionProperties.AddedFolds | crates/agent-core/src/session_manager.rs:303-315 | otherwise it is appended and all but the last ten messages are folded into one summary message, or dropped if the summary panics |
| SessionProperties.SummarizedFolds | crates/agent-core/src/session_manager.rs:419-474 | summarising folds exactly all but the last ten messages, and nothing if there are no more |
| SessionProperties.AddPanicsIff | crates/agent-core/src/session_manager.rs:395-411 | a call panics iff it is due for a summary and the folded part cannot be abbreviated |
| SessionProperties.CreateEffect | crates/agent-core/src/session_manager.rs:369-386 | a session is refused iff it is new and the limit is reached; a new one is empty and others are kept |
| SessionProperties.StepEffect | crates/agent-core/src/session_manager.rs:286-474 | what each step does to its own session and log |
| SessionProperties.WithRoleSelects | crates/agent-core/src/session_manager.rs:490-501 | grouping by role keeps exactly the messages of that role, each as often as it occurs |
| SessionProperties.WithRoleKeepsOrder | crates/agent-core/src/session_manager.rs:490-501 | grouping by role keeps the messages in order, at all positions that have the role |
| SessionProperties.SummaryListsTopics | crates/agent-core/src/session_manager.rs:503-513 | the summary lists the first twenty user messages in order, behind their count |
| SessionProperties.SummaryIsBounded | crates/agent-core/src/session_manager.rs:482-546 | a summary is at most 663 tokens, whatever it folds |
| SummaryText.JoinHasPart | crates/agent-core/src/session_manager.rs:537 | the text is the parts at their offsets, with one newline between them |
| SummaryText.SummaryLines | crates/agent-core/src/session_manager.rs:482-537 | heading, topic count, the rest beyond twenty, response and tool counts, word for word and in order |
| SummaryText.BulletShows | crates/agent-core/src/session_manager.rs:550-558 | a listed message is cut at a hundred bytes, with an ellipsis |
| SummaryText.PanicsIff | crates/agent-core/src/session_manager.rs:503-513 | the summary panics iff one of the first twenty user messages has a continuation byte at the cut |
| Decimal.PrintThenValue | crates/coding-module/src/lsp_client.rs:829 | printing a number and reading it back gives the number |
| Decimal.NoLeadingZero | crates/coding-module/src/lsp_client.rs:829 | numbers are printed without leading zeros |
| LspFraming.Channel.Send | crates/coding-module/src/lsp_client.rs:829-833 | the frame is appended to the stream |
| LspFraming.Channel.ReadMessage | crates/coding-module/src/lsp_client.rs:897-944 | the header loop equals the recursive reader and leaves what follows the body |
| LspProperties.ReadPacket | crates/coding-module/src/lsp_client.rs:897-944 | one message with any further header fields before and after its length is read exactly |
| LspProperties.RoundTrip | crates/coding-module/src/lsp_client.rs:871-944 | any sequence of messages is read back exactly, and the bytes behind it stay |
| LspProperties.FrameRoundTrip | crates/coding-module/src/lsp_client.rs:829-944 | what the client writes, the reader reads |
| LspProperties.ReadSplitsStream | crates/coding-module/src/lsp_client.rs:907-944 | on any stream, a message read is followed exactly by what is left |
| LspProperties.NoLengthNoMessage | crates/coding-module/src/lsp_client.rs:907-933 | header fields without a content length of that exact spelling give no message |
| LspProperties.LowerCaseIsIgnored | crates/coding-module/src/lsp_client.rs:923-933 | a stream whose only length field is in lower case gives no message |
| LspErrors.BadLengthFails | crates/coding-module/src/lsp_client.rs:923-929 | a content length that is not a number in range fails the read, wherever it comes |
| LspErrors.ParseUsizeIff | crates/coding-module/src/lsp_client.rs:924-928 | exactly decimal digits, possibly behind a plus sign and within the range, are a length |
| LspErrors.BodyOutcome | crates/coding-module/src/lsp_client.rs:933-944 | the body is the next bytes of that length; the read fails iff there are fewer or they are not UTF-8 |
| LspErrors.LaterLengthCounts | crates/coding-module/src/lsp_client.rs:923-931 | of two content lengths the later one counts |
| LspErrors.BadHeaderFails | crates/coding-module/src/lsp_client.rs:907-915 | a header line that is not UTF-8, or a stream that ends in the header, fails the read |
| LspErrors.TrimSplits | crates/coding-module/src/lsp_client.rs:917 | trimming takes white space and nothing else off both ends |
| Utf8.ValidIffEncoded | crates/coding-module/src/lsp_client.rs:941-943 | bytes are accepted as UTF-8 iff they encode some sequence of Unicode scalar values |
| Utf8.TrimmedIffWhite | crates/coding-module/src/lsp_client.rs:917 | exactly the characters with the Unicode property White_Space are trimmed |
| LspProperties.CutFrameFails | crates/coding-module/src/lsp_client.rs:913-941 | a cut-off frame is accepted iff its body is empty and only the last newline is missing |
| UnifiedDiff.BuildHunk | crates/coding-module/src/diff_tracker.rs:378-431 | the hunk built by the nested loops, and its additions and removals |
| UnifiedDiff.GenerateUnifiedDiff | crates/coding-module/src/diff_tracker.rs:362-442 | the diff built by the loops, totals included |
| DiffProperties.CoversIsAligned | crates/coding-module/src/diff_tracker.rs:378-431 | for every edit script, hunks name exactly their lines and only equal lines lie between them |
| DiffProperties.DiffPreservesMeaning | crates/coding-module/src/diff_tracker.rs:362-442 | patching old gives new, patching backwards gives old, headers match their lines, counts balance |
| DiffProperties.TotalsAreNumbers | crates/coding-module/src/diff_tracker.rs:432-442 | the totals are the numbers of added and of removed lines in all hunks |
| DiffProperties.RenderIff | crates/coding-module/src/diff_tracker.rs:378-431 | ending every hunk line with a newline gives back the text iff every line of the text ended with one |
| DiffProperties.DiffRestoresTextIff | crates/coding-module/src/diff_tracker.rs:362-442 | the patched lines, each ended with a newline, are the new text iff all its lines end with a newline; backwards likewise for the old text; lines may also end with a carriage return |
| DiffProperties.DiffRestoresNewlineText | crates/coding-module/src/diff_tracker.rs:362-442 | for a new text whose only line ends are newlines that means that it is empty or ends with one |
| ChangeTracker.StateSpansSession | crates/coding-module/src/diff_tracker.rs:199-240 | the tracked state of a file spans its own changes however changes interleave |
| ChangeTracker.BinaryIff | crates/coding-module/src/diff_tracker.rs:354-357 | content is binary iff one of its first 8192 bytes is zero; a missing file is not, and counts as empty |
| ChangeTracker.Tracker.RecordChange | crates/coding-module/src/diff_tracker.rs:199-240 | the states are those of the recorded modifications |
| ChangeTracker.Tracker.GetCumulativeDiff | crates/coding-module/src/diff_tracker.rs:245-269 | the diff leads from before the first to after the last change; none for untouched files; no hunks for binary ones |
| DiffLayout.CalculateDiffHeight | crates/coding-module/src/diff_renderer.rs:484-503 | the accumulated height is that of the section |
| DiffLayout.RenderDiffSection | crates/coding-module/src/diff_renderer.rs:208-268 | the drawing loops place every header, line and border |
| DiffLayout.RenderCombined | crates/coding-module/src/diff_renderer.rs:139-181 | the sections at their offsets and the total height |
| DiffLayout.SectionStacked | crates/coding-module/src/diff_renderer.rs:208-268 | a section stays within its height and nothing in it overlaps |
| DiffLayout.HeightIsTight | crates/coding-module/src/diff_renderer.rs:484-503 | a section with content ends exactly at its height |
| DiffLayout.SectionsStacked | crates/coding-module/src/diff_renderer.rs:139-181 | sections never overlap and end one padding above the bottom |
| DiffLayout.RenderedNumbersAreTrue | crates/coding-module/src/diff_renderer.rs:224-252 | every number beside a line is that line's index in the old or new text |
| DiffLayout.RowAt | crates/coding-module/src/diff_renderer.rs:224-252 | every line of a hunk gets its row, one below the other |
| DiffLayout.SectionShows | crates/coding-module/src/diff_renderer.rs:208-268 | a section starts with its header and shows all lines in order with one header per hunk, or a note for binary content |
| DiffLayout.SectionsShow | crates/coding-module/src/diff_renderer.rs:139-181 | the image shows the lines of all diffs in order |
| DiffLayout.HeightIs | crates/coding-module/src/diff_renderer.rs:484-503 | the height in pixels by hunks and lines, at least one line |
| DiffLayout.CombinedHeight | crates/coding-module/src/diff_renderer.rs:139-181 | the height of the image by sections, separators and padding |
| ToolRegistry.Tools.RegisterBuiltIn | crates/agent-core/src/tool_registry.rs:117-137 | first registration wins and is published |
| ToolRegistry.Tools.RegisterPluginTool | crates/agent-core/src/tool_registry.rs:143-179 | first registration wins, is indexed and published |
| ToolRegistry.Tools.UnregisterTool | crates/agent-core/src/tool_registry.rs:182-205 | table, index and events after removing a tool |
| ToolRegistry.Tools.UnregisterPluginTools | crates/agent-core/src/tool_registry.rs:210-242 | all names of the plugin are removed and published once each, in any order |
| ToolRegistry.UnregisterPluginExact | crates/agent-core/src/tool_registry.rs:210-242 | the plugin's tools are removed, all of them and no others |
| ToolRegistry.RunIsConsistent | crates/agent-core/src/tool_registry.rs:117-377 | in every reachable state index and table agree, no index set is empty, and replaying the events rebuilds the table |
| PluginEffects.RegisterEffect | crates/agent-core/src/tool_registry.rs:117-137 | a new built-in name is entered and published; a known one changes nothing |
| PluginEffects.RegisterPluginEffect | crates/agent-core/src/tool_registry.rs:143-179 | a new plugin tool is entered, indexed and published; a known one changes nothing |
| PluginEffects.UnregisterEffect | crates/agent-core/src/tool_registry.rs:182-205 | a known name is taken out of table and index and published |
| PluginLoader.Plugins.LoadPlugin | crates/plugin-system/src/loader.rs:193-255 | a new plugin gets an entry, a handle and an event; a known name is refused |
| PluginLoader.Plugins.UnloadPlugin | crates/plugin-system/src/loader.rs:261-295 | handle, registrations and entry removed, event published |
| PluginLoader.Plugins.ReloadPlugin | crates/plugin-system/src/loader.rs:301-341 | unload and load from the same directory, whose manifest may fail or name another plugin |
| PluginLoader.Plugins.ApiRegisterTool | crates/plugin-system/src/api.rs:178-208 | registration for the handle's plugin, refused on a name conflict |
| PluginLoader.Plugins.ApiRegisterHandler | crates/plugin-system/src/api.rs:215-258 | shared and local handler tables after registration, unchanged on a conflict |
| PluginEffects.LoadEffect | crates/plugin-system/src/loader.rs:193-255 | a load enters the plugin, active, with a new handle, publishes it, and changes nothing else |
| PluginEffects.UnloadEffect | crates/plugin-system/src/loader.rs:261-295 | an unload removes the plugin with all it owns, clears its handle and publishes it |
| PluginEffects.ReloadEffect | crates/plugin-system/src/loader.rs:301-341 | a successful reload leaves the named plugin from the same directory, active, owning nothing, with a new handle, and both events |
| PluginEffects.ReloadKeepsOthers | crates/plugin-system/src/loader.rs:301-341 | a reload leaves all other plugins, their tools and their handlers as they were |
| PluginEffects.FailedReload | crates/plugin-system/src/loader.rs:301-341 | a reload that cannot load leaves the plugin unloaded; one of an unknown plugin does nothing |
| PluginEffects.RegisterToolEffect | crates/plugin-system/src/api.rs:178-208 | an accepted tool goes to the plugin of the handle and nothing else changes |
| PluginEffects.RegisterHandlerEffect | crates/plugin-system/src/api.rs:215-258 | an accepted handler goes to the plugin and into the handle and nothing else changes |
| PluginLoader.UnloadIsExact | crates/plugin-system/src/api.rs:284-318 | unloading removes that plugin's tools and handlers and nobody else's, and keeps the invariant |
| PluginLoader.RegisterHandlerValidIff | crates/plugin-system/src/api.rs:215-258 | registering a handler keeps the tables in agreement iff it is refused or the handle is installed |
| PluginLoader.RegisterToolValidIff | crates/plugin-system/src/api.rs:178-208 | registering a tool keeps every tool owned by a loaded plugin iff it is refused or the plugin is loaded |
| PluginLoader.LifecycleIsExactIff | crates/plugin-system/src/loader.rs:193-341 | for runs of whole calls: at every point maps, handlers, tools and alternating events agree iff every accepted tool is registered for a loaded plugin and every accepted handler through an installed handle |
| PluginLoader.StaleHandleLeavesTrace | crates/plugin-system/src/loader.rs:356-359 | a concrete run in which an unloaded plugin ends up owning a handler |
| PluginInterleaving.AfterFitsIff | crates/plugin-system/src/loader.rs:193-341 | each action under one lock keeps entries, handles, tools, handler names and events in step iff it is neither a clash nor a late registration |
| PluginInterleaving.FitsIff | crates/plugin-system/src/loader.rs:193-341 | with loads, unloads and registrations split at their locks and overlapping in any way, the lifecycle is exact at every point iff no two calls clash on a plugin and no registration is late |
| PluginInterleaving.EntriesAfter | crates/plugin-system/src/loader.rs:193-341 | entries change only by entering, marking and removing a plugin; a check changes nothing |
| PluginInterleaving.QuietIsValid | crates/plugin-system/src/loader.rs:193-295 | whenever nothing is under way the loader's invariant holds: equal key sets, owned tools and handlers, alternating events |
| PluginInterleaving.UndisturbedLoad | crates/plugin-system/src/loader.rs:193-255 | a load that nothing disturbs has the effect of the single-step load |
| PluginInterleaving.UndisturbedUnload | crates/plugin-system/src/loader.rs:261-295 | an unload that nothing disturbs has the effect of the single-step unload |
| PluginInterleaving.UnloadInsideLoad | crates/plugin-system/src/loader.rs:227-235 | an unload between the two insertions of a load leaves a handle without a plugin |
| PluginInterleaving.TwoLoadsPublishTwice | crates/plugin-system/src/loader.rs:201-244 | two loads that both found the name free publish it twice |
| PluginInterleaving.BrokenForGood | crates/plugin-system/src/loader.rs:237-293 | events that once fail to alternate do so in every later state |
| PluginInterleaving.LateToolStays | crates/plugin-system/src/api.rs:178-208 | a tool registered after the clean-up stays with its plugin in every later state until the plugin is listed again |
| PluginInterleaving.ToolRegisteredDuringUnload | crates/plugin-system/src/loader.rs:268-276 | a tool registered while the plugin is still listed ends up owned by a plugin that is not loaded |
| LlmRouter.FromConfig | crates/llm-router/src/router.rs:64-88 | the providers sorted by priority, ties in configuration order |
| LlmRouter.OrderIsUnique | crates/llm-router/src/router.rs:79 | a stable sort by priority has only one result |
| LlmRouter.Complete | crates/llm-router/src/router.rs:103-165 | the reply is that of the first healthy provider by priority and position, exactly those before it are tried, and a total failure lists all attempts in order |
| MessageLoop.RunMessageLoop | crates/agent-core/src/runtime.rs:297-457 | at most the limit of completions; transcript, results, ids and count as the rounds dictate; failure only from the router |
| MessageLoop.ResultsAnswerCalls | crates/agent-core/src/runtime.rs:431-454 | over all rounds the results carry the ids of the calls, in order |
| MessageLoop.InitialOrder | crates/agent-core/src/runtime.rs:307-319 | prompt, history and user message in this order |
| MessageLoop.ResultMeans | crates/agent-core/src/tool_registry.rs:291-350 | id, text and error flag of a result |
| MessageLoop.RoundAdds | crates/agent-core/src/runtime.rs:424-454 | a round adds the assistant text and one tool message per result, in order |
| SessionFallback.Fallback.SaveState | crates/memory-store/src/session_state.rs:187-211 | cache, database and availability after a save that may fail |
| SessionFallback.Fallback.RestoreState | crates/memory-store/src/session_state.rs:214-238 | cache first, then the database while it is available |
| SessionFallback.Fallback.RetryFlush | crates/memory-store/src/session_state.rs:253-284 | one undisturbed pass writes every cached state that does not fail, and the store is available again iff none failed |
| SessionFallback.SaveEffect | crates/memory-store/src/session_state.rs:187-211 | a save is cached; it reaches the database iff available and not failing; a failure clears the flag |
| SessionFallback.RestoreEffect | crates/memory-store/src/session_state.rs:214-238 | cached state, else the row if available and the query succeeds; a failing query clears the flag |
| SessionFallback.FlushEffect | crates/memory-store/src/session_state.rs:253-284 | a flush writes each cached state that does not fail and leaves the other rows |
| FallbackRuns.CoherentIffNoLostUpdate | crates/memory-store/src/session_state.rs:187-284 | in every interleaving of split saves, restores and retry passes, an available store has the cached state of every session not being saved, at every point, iff no save writes after being overtaken, no pass writes an outdated copy, and no pass ends well after missing a save |
| FallbackRuns.AfterCoherentIff | crates/memory-store/src/session_state.rs:187-284 | the same for each single action |
| FallbackRuns.UndisturbedSave | crates/memory-store/src/session_state.rs:187-211 | a save that nothing disturbs has the effect of the single-step save |
| FallbackRuns.UndisturbedRestore | crates/memory-store/src/session_state.rs:214-238 | a restore that nothing disturbs has the effect of the single-step restore |
| FallbackRuns.UndisturbedFlush | crates/memory-store/src/session_state.rs:253-284 | a pass that nothing disturbs, in any order of the states, has the effect of the single-step flush |
| FallbackRuns.UndisturbedIsCoherent | crates/memory-store/src/session_state.rs:187-284 | when saves of one session do not overlap each other and no save overlaps a pass, the store is coherent at every point, whatever fails |
| FallbackRuns.RestoreReturnsLatest | crates/memory-store/src/session_state.rs:214-222 | in every interleaving a restore returns the latest save of the session |
| FallbackRuns.RetryNeverStops | crates/memory-store/src/session_state.rs:253-284 | in every interleaving, while the store counts as unavailable, a retry loop is alive |
| FallbackRuns.LoopsAfter | crates/memory-store/src/session_state.rs:187-284 | a failure adds a retry loop, a pass that ends well takes one away, nothing else changes their number |
| FallbackRuns.OverlappingSavesLoseUpdate | crates/memory-store/src/session_state.rs:187-199 | two overlapping saves leave the older state in an available database without any flush |
| FallbackRuns.SaveDuringFlushIsLost | crates/memory-store/src/session_state.rs:259-275 | a save between the copy and the end of a pass leaves the available database stale |

## Left out

- Sandbox validation and path canonicalisation: paths are canonical and access is an input; symbolic links and directories are not modelled, so directories created by an operation are not undone.
- Partial writes: a file write that fails changes nothing in the model, whereas the operating system may leave a truncated file.
- The log level filter, the JSON form of entries, retention clean-up and the clock of the logger: entries are accepted ones, names of opened and rotated files are inputs.
- Spawning, output reading and timeouts of shell processes, command allow lists and runtime shutdown: a call is its atomic steps on the counter and its ways out.
- Persisting sessions: restoring one is an `Open` step followed by a push without a check; the 80% threshold is the exact value that the floating-point product truncates to.
- I/O errors of the language server's pipes, spawning, timeouts and JSON bodies.
- The diff algorithm itself: its result is an input that has to satisfy `Covers`. The line totals of `session_summary` are left out.
- GenerateUnifiedDiff: the hunks hold lines without their newline, as in the code, so whether a file ends with a newline is not in the diff; `DiffRestoresTextIff` says what follows.
- RenderCombined: heights are unbounded numbers, not `u32`; horizontal positions, colours and text escaping are not modelled.
- The behaviour of tools, tool definitions for the model, and replacing the event bus during a run.
- `load_all`, which only repeats `load_plugin`; reading the manifest and the directory kept by a reload are inputs of a load.
- The streaming variant of failover, `reload_config` and latencies: same loop, same sort.
- Agent status, in-flight counting and the post-task hook of the runtime.
- The sleep of the retry loops of the fallback store: a pass may begin at any time.
- Alert cooldown, messaging integrations, the API server, metrics, WASM, git commands and the front ends.
