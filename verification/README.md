# NomadDev server cores, verified in Dafny

NomadDev is a Go server that lets a phone drive a coding agent: clients reconnect
over WebSockets, an LLM translator asks for tool calls, a sandbox runs them, and the
conversation is stored. This project models the parts of it where state is easy to get
wrong, and proves what they promise over every input and every run. `dafny verify
dfyconfig.toml` checks everything.

Each module has the same shape. The simple thing the code stands for (the never-evicted
log, the trace of a turn, the set of in-flight ids) is a value. What the code does to it
is a function or a step of a machine. Lemmas prove the promise for every run, by
induction over the steps. Where the Go code updates fields or loops, a class or a method
with loop invariants is proved equal to those functions.

| module | what it models | what is proved at the top |
|---|---|---|
| `UnifiedDiff` | the one-hunk diff of a search/replace edit, with an independent parser and applier | the printed diff reads back and turns the old file into the new one, and back again |
| `CodePatch` | planning and writing a patch, running the verify command, rolling back | one exit chunk, last; the patch is kept exactly on a clean exit of an uncancelled run, and otherwise the original bytes are back, exactly when there is a file left to write them to |
| `RingBuffers`, `SessionStore` | the replay buffer, its pruned table, rehydration after a crash at any point | a crash loses at most the entry whose insert it prevented; a reconnect gets everything missed or "stale" |
| `History`, `HistoryRaces` | the conversation table with summarising compaction, and its interleavings with an unlocked reset | the table is a faithful view of the full log, over every interleaving, exactly until an operation that a reset overtook writes; each summary is the summarizer's answer to the turns it replaced |
| `Approver`, `TurnLoop` | the approval channel protocol and the turn loop with its retry budget | first answer wins; one final message, gap-free numbering, exact retry verdicts, at most one escalation on the wire, no ungated dispatch |
| `LspFraming`, `LspDemux` | Content-Length framing; matching responses to requests | stream round trip; at most one response per request, its own; the channel send never blocks |
| `LineSplitter` | the capped line splitter under a buffered scanner | every stream, under every way of reading it, is cut without loss; exactly when the lines do not depend on the reads |
| `WorkerPool`, `WorkerMerge` | worker-pool arguments, path scopes, merge-back with git's renames | accepted scopes never meet; exactly when a merge conflicts; the order of merges does not matter |
| `Outbox` | the client's offline queue | the k-th intent accepted is the k-th to leave, across any number of failed drains |
| `TokenRevocation`, `TokenRaces` | refresh-token rotation with a pruned revocation list, and its handlers side by side | a spent token never parses again; exactly when one is exchanged twice |

`Text` holds the string functions they share (split, join, first newline, decimal numbers, trimming).
One `char` is one byte of a Go string.

Nondeterminism is a parameter or a choice of step: what the translator, the operator, the
verify command and the server answer, how many bytes a read returns, which write fails,
which goroutine moves next. The atomic steps are sections under one mutex, single channel
operations and single SQL statements or transactions; a call made of several is several
steps wherever something else can fall between them.

## Where the code is not quite what its comments say

- Crash equivalence (`SessionStore.RehydrateRestoresIff`) holds if and only if the buffer
  size is at least 1 or nothing was appended. The buffer itself rounds other sizes up to
  1, but the table does not: size 0 reads back no rows, and a negative size prunes each
  row as it is inserted.
- Pruning (`SessionStore.TableIsTail`) keeps one row more than the trailing 2·bufferSize
  window its comment names.
- Reset of a conversation takes no mutex (`HistoryRaces.FaithfulIffNotTorn`). An append
  that it overtakes puts its turn at the old index of an emptied thread, and a compaction
  that it overtakes puts an old summary there. The table agrees with the log, and the next
  index with the in-memory store, exactly when neither has happened since the latest reset.
- Windows of the two history stores (`History.WindowsAgreeIff`) agree if and only if no
  turn of the window was condensed and "the entire thread" has at most 2^30 turns.
- The diff (`UnifiedDiff.ReadableIffPathClean`) can be read back if and only if the path
  has no newline.
- The diff counts strings.Split lines. It is also a diff of newline-terminated lines, as
  in the POSIX "Diff -u or -U Output Format", if and only if at least four newlines follow
  the anchor (`UnifiedDiff.PatchesBytesIff`); in a file `a` and a newline the hunk claims
  two lines (`UnifiedDiff.OneLineFileCountsTwo`).
- "Nothing was written, so no rollback" (`CodePatch.FailedWriteKeepsOriginalIff`): a write
  that fails after the truncating open leaves a prefix of the new content. One that fails
  at once always loses the file, and some failing write can leave the original only if the
  file from the anchor on is a prefix of its replacement.
- Roll back (`CodePatch.RollBackWorksIff`) opens the file without creating it. With a
  working write it brings the bytes back if and only if the verify command left a file
  there.
- The note after a stream without an exit chunk (`CodePatch.Workspace.RollBack`) says that the
  file was rolled back whether or not it was.
- Usage (`TurnLoop.UsageExactIff`): for the counts a provider reports, the usage of a turn
  is all the usage its events carried if and only if no event carries usage behind a field
  the switch tests first. The translator contract rules such events out
  (`TurnLoop.ContractCountsAll`).
- A dispatched stream without an exit chunk (`TurnLoop.AnswersPerCall`) counts as a success
  and answers no command.
- A translator's error (`TurnLoop.ErrTextLost`) ends the turn with an empty error text,
  whatever it says, where the translator's documentation says the text is passed on.
- Lines (`LineSplitter.LinesIndependentIff`) are independent of the reads if and only if no
  newline-terminated line has a length that is a positive multiple of the cap.
- Merge-back "never conflicts by construction" (`WorkerMerge.ConflictIff`): git lists a
  moved file under its new name only, so a worker may move a file out of another worker's
  scope. Apart from a merge git stops for a reason of its own, a worker conflicts exactly
  when it or one merged before moved a file that the other deleted, moved too, or rewrote
  differently from the move. A deleted file that is moved is such an input
  (`WorkerMerge.MovedAndDeletedConflicts`). A rewritten one is not: the rewriting follows the
  move (`WorkerMerge.MovedAndRewrittenMerges`). Workers that move only files of their own
  scopes never conflict (`WorkerMerge.OwnMovesNeverConflict`).
- Re-queueing (`Outbox.RequeueFindsEmpty`): the drain's comment provides for items queued
  while it runs; there are none, because Send writes directly or refuses during a drain.
- Rotation (`TokenRevocation.ExchangeAgainIff`): an exchanged refresh token can be
  exchanged again at once exactly when it has no jti, the list is the no-op one, or the
  revocation write failed (the handler logs that and still answers).
- Handlers side by side (`TokenRaces.TwiceIffOverlapped`): with working writes a token with
  a jti is exchanged twice exactly when two requests for it overlapped, each having parsed it
  before the other one's revocation was written.

## Model

| member | source | states |
|---|---|---|
| UnifiedDiff.DiffTurnsBeforeIntoAfter | internal/fsops/run.go:640-697 | for every file P+S+Q, replacement R and newline-free path the printed hunk parses back to itself, its header counts are its body counts, applying it to the old lines gives exactly the new lines and reversing it gives the old lines |
| UnifiedDiff.DiffShows | internal/fsops/run.go:640-696 | for every edit: the path on both sides, up to three lines of context before and after, and between them exactly the lines the anchor touches and the lines that replace them |
| UnifiedDiff.ReadableIffPathClean | internal/fsops/run.go:674-677 | the printed diff parses if and only if the path holds no newline |
| UnifiedDiff.NewlinePathUnreadable | internal/fsops/run.go:674-676 | a newline in the path pushes the range line into the body, where no reader accepts it |
| UnifiedDiff.PrintParses | internal/fsops/run.go:674-696 | printing and the independent parser are inverse on every clean hunk, decimal ranges included |
| UnifiedDiff.EditFrame | internal/fsops/run.go:640-659 | around any edit the lines before the first changed line and after the last one are the same on both sides |
| UnifiedDiff.ExtentOrdered | internal/fsops/run.go:646-671 | counted lines and clamped context windows are ordered and inside both files, so every printed range exists |
| UnifiedDiff.HunkSides | internal/fsops/run.go:646-696 | the hunk's old side is the addressed stretch of the old file, its new side that of the new file, and everything outside agrees |
| UnifiedDiff.AddressedApplies | internal/fsops/run.go:674-696 | any hunk that addresses two files this way has exact counts and applies both forwards and backwards |
| UnifiedDiff.RenderUnifiedDiff | internal/fsops/run.go:640-697 | the rendering loops produce exactly the printed form of the specified hunk |
| UnifiedDiff.PatchesBytesIff | internal/fsops/run.go:655-696 | read as newline-terminated lines the hunk's old side stands in the old file at its start line, and its new side put there gives the new file, if and only if at least four newlines follow the anchor |
| UnifiedDiff.OneLineFileCountsTwo | internal/fsops/run.go:668-671 | the hunk of a one-line file claims two lines and does not patch its bytes |
| UnifiedDiff.EmitHunk | internal/fsops/run.go:668-696 | header and body are the printed form of the hunk at the computed extent |
| UnifiedDiff.EmitLines | internal/fsops/run.go:679-695 | the four loops print context, removals, additions and trailing context in that order |
| UnifiedDiff.EmitRange | internal/fsops/run.go:679-695 | one loop prints exactly lines lo to hi, each behind its mark |
| CodePatch.CountOneIffSoleAnchor | internal/fsops/run.go:587-596 | the non-overlapping count is one exactly when the first occurrence has no other occurrence after its end |
| CodePatch.PlanIff | internal/fsops/run.go:556-618 | a patch is planned exactly when arguments, path, file kind, anchor and size all allow it, stated without the code's order of tests |
| CodePatch.PlanSound | internal/fsops/run.go:596-617 | a plan replaces the one anchor and nothing else, fits the size limit, and the diff shown to the operator means exactly what is written |
| CodePatch.RefusedBecause | internal/fsops/run.go:556-612 | each refusal has its own condition: a bad argument, an escaping path, a missing file, a directory, no anchor, more than one, too large |
| CodePatch.Workspace.ApplyPatch | internal/fsops/run.go:496-520 | the patch is planned against the file as it is now; what is on disk after each kind of write outcome, and nothing else is touched |
| CodePatch.WriteTouchesOne | internal/fsops/run.go:504-513 | a write changes no other file; the named one holds the content, a prefix of it, or what it held |
| CodePatch.RollBackWorksIff | internal/fsops/run.go:542-550 | with a working write a roll back brings the bytes back if and only if there is a file to write to |
| CodePatch.DeletedFileStaysDeleted | internal/fsops/run.go:542-545 | a file the verify command deleted is not restored, whatever the write would do |
| CodePatch.Workspace.RestoreFile | internal/fsops/run.go:530-551 | reports success exactly when the write went through to a file that exists, and then that file holds the original bytes |
| CodePatch.EmitBody | internal/middleware/dispatcher.go:203-217 | the apply result is sliced onto stdout in chunks of at most 16 KiB that concatenate to it, with no exit chunk; it is cancelled exactly when the context wins at one of these sends |
| CodePatch.StreamVerify | internal/middleware/dispatcher.go:250-265 | every chunk but the exit chunks is forwarded, in order, up to the first send the cancelled context wins, and the last exit chunk seen is held back |
| CodePatch.ForwardedData | internal/middleware/dispatcher.go:250-265 | what is forwarded has exactly the stdout and stderr of the stream and no exit chunk |
| CodePatch.Workspace.RollBack | internal/middleware/dispatcher.go:210-287 | every failing exit restores once, loses nothing sent before, tells the operator whether the restore worked (or, without an exit chunk, that it did) and ends with the given exit chunk |
| CodePatch.Workspace.Conclude | internal/middleware/dispatcher.go:266-287 | the patch is kept exactly on a clean exit of an uncancelled run, and then nothing is touched |
| CodePatch.Workspace.RunVerify | internal/middleware/dispatcher.go:244-287 | the exit chunk is the verify command's own unless the stream was cancelled or had none; an uncancelled stream is forwarded in full |
| CodePatch.Workspace.VerifyOrRollBack | internal/middleware/dispatcher.go:197-290 | exactly one exit chunk, last, and which one in every case; the patch is kept if and only if no send was cancelled and the verify command exited 0, otherwise there is one restore on the workspace as patched or as the verify command left it; an undisturbed run loses no output byte |
| CodePatch.Workspace.ApplyWithVerify | internal/middleware/dispatcher.go:181-290 | the same for the whole composition: no plan leaves every file alone; a failed write leaves what it wrote and is not restored; a written patch is kept if and only if no send was cancelled and the verify command exited 0, and otherwise the original bytes are back, with a working write exactly when a file is still there |
| CodePatch.FailedWriteKeepsOriginalIff | internal/middleware/dispatcher.go:187-195 | against the comment that nothing was written: a failed open keeps the file, a write that fails at once never does, and some failing write can if and only if search and tail are a prefix of replacement and tail |
| RingBuffers.PushKeepsWindow | internal/session/ringbuf.go:40-52 | one push turns the window of a log into the window of the longer log |
| RingBuffers.PushedIsWindow | internal/session/ringbuf.go:40-52 | after any pushes the buffer is the longest suffix of the full log within both caps, or just the last entry when that alone is too big |
| RingBuffers.WindowUnique | internal/session/ringbuf.go:40-52 | there is only one such window, so the specification fixes the buffer |
| RingBuffers.PushedForgets | internal/session/ringbuf.go:40-52 | the buffer is memoryless: any suffix of the log at least cap long gives the same buffer |
| RingBuffers.SinceIsComplete | internal/session/ringbuf.go:82-110 | with increasing ids the answer is stale exactly when the id is no longer held, and otherwise the full log is what came up to the id followed by the answer |
| RingBuffers.LessIff | internal/session/ringbuf.go:90-97 | ids are ordered by their first different byte, a proper prefix first |
| RingBuffers.RingBuffer.constructor | internal/session/ringbuf.go:25-37 | positive caps are kept as configured, the others become one |
| RingBuffers.RingBuffer.Push | internal/session/ringbuf.go:40-52 | the eviction loop leaves exactly the specified window, with the byte counter equal to the sizes held |
| RingBuffers.RingBuffer.Since | internal/session/ringbuf.go:82-110 | the reply is stale or exactly what follows the id in the buffer |
| SessionStore.TableIsTail | internal/session/sqlite.go:264-298 | the pruned table is exactly the last 2·bufferSize+1 entries of the log (all, if fewer), each at its own index |
| SessionStore.NegativeSizeKeepsNothing | internal/session/sqlite.go:289-296 | a negative size prunes each row as it is inserted |
| SessionStore.RecentSurvivesPruning | internal/session/sqlite.go:289-312 | what rehydration reads is a suffix of the full log: all of it, or bufferSize entries |
| SessionStore.TailRehydrates | internal/session/sqlite.go:303-342 | any table that is the end of the log, pruned or not, gives back the window of the log |
| SessionStore.RehydrateRestoresIff | internal/session/sqlite.go:264-342 | the rehydrated buffer is the lost one if and only if the size is at least one or nothing was appended; it is then the longest end of the log within the configured numbers |
| SessionStore.DoKeepsFaithful | internal/session/sqlite.go:151-342 | every open, push, insert, prune, crash and drop keeps disk and memory faithful to the log |
| SessionStore.EveryRunFaithful | internal/session/sqlite.go:151-342 | after any mix of those steps, with crashes also inside an append, the table is the end of the log of inserted entries, these are the entries pushed but for those a crash kept from being inserted, and an open session holds the longest end of it within the configured buffer size and bytes |
| SessionStore.CrashReopenLoses | internal/session/sqlite.go:264-298 | crash and reopen at any point of any run: a resting session comes back as it was, a crash before the insert loses exactly that entry, one between insert and prune loses nothing |
| SessionStore.ReconnectIsComplete | internal/session/session.go:53-70 | at any point of any run with crashes a reconnecting client is told it is stale, exactly when its id is not in the window of the configured size, or gets everything pushed after its id but for exactly the entries that a crash kept from being inserted |
| SessionStore.KeptWhere | internal/session/session.go:53-70 | every entry that was not lost splits the pushed entries and the surviving ones at the same place |
| SessionStore.SQLiteStore.constructor | internal/session/sqlite.go:79-112 | a new store knows no session |
| SessionStore.SQLiteStore.GetOrCreate | internal/session/sqlite.go:151-181 | the live session, or a fresh one rehydrated from disk; other sessions untouched |
| SessionStore.SQLiteStore.Rehydrate | internal/session/sqlite.go:303-342 | reading newest first into a batch and replaying it backwards gives the specified buffer |
| SessionStore.SQLiteStore.Persist | internal/session/sqlite.go:264-298 | the table of that session takes the row and is pruned; no other session's rows change |
| SessionStore.SQLiteStore.Append | internal/session/session.go:53-62 | memory and table both take the entry; other sessions untouched |
| SessionStore.SQLiteStore.CrashAll | internal/session/sqlite.go:303-307 | every live buffer is lost and the table is not |
| SessionStore.SQLiteStore.DropSession | internal/session/sqlite.go:184-198 | a dropped session has no buffer and no rows; other sessions untouched |
| History.FaithfulAt | internal/history/sqlite.go:213-284 | what became of each logged turn: tool turns intact at their own index, text turns intact exactly when among the last, earlier ones in exactly one summarised block |
| History.FaithfulOnly | internal/history/sqlite.go:213-284 | the table holds nothing else |
| History.FaithfulSorted | internal/history/sqlite.go:126-167 | one row per index, in chronological order |
| History.BlockCovers | internal/history/sqlite.go:317-342 | every dropped text turn lies in a block |
| History.BlocksDisjoint | internal/history/sqlite.go:317-342 | no two summaries cover the same turn |
| History.NextIdxIsLogLength | internal/history/sqlite.go:107-112 | the next index is the length of the full log, as in the uncompacted store |
| History.AppendFaithful | internal/history/sqlite.go:99-122 | an append keeps the table faithful to the longer log |
| History.CompactIsBlock | internal/history/sqlite.go:250-284 | deleting the victims and inserting the summary is exactly adding one block |
| History.CompactFaithful | internal/history/sqlite.go:291-346 | a compaction keeps the table faithful and takes n text turns to n - n/2 |
| History.VisitSummarises | internal/history/sqlite.go:317-342 | in a visit that takes effect the rows given to the summarizer are exactly the rows missing afterwards, in order, each with its own index, role, time and extracted text, and the one new row is its marshalled answer at the place of the first |
| History.BlocksAreAnswers | internal/history/sqlite.go:291-346 | after any calls the summary of every block is what the summarizer of one of them answered when given exactly the text turns of the log that the block condenses |
| History.TextRowsAreLogs | internal/history/sqlite.go:213-243 | the rows loaded for compaction are the user and assistant turns of the log not yet condensed |
| History.VisitsWhen | internal/history/sqlite.go:291-345 | exactly when a visit takes effect and when it fails: threshold, summarizer, two text rows, enough words, an answer and a commit |
| History.CountWordsIs | internal/history/summarizer.go:160-162 | the word count is the number of maximal runs without white space |
| History.WordsOf | internal/history/summarizer.go:160-162 | every text is made of such words and white space |
| History.SequentialRunFaithful | internal/history/sqlite.go:99-346 | after any sequence of whole appends, compactions and resets the table is faithful and the next index is the uncompacted store's |
| HistoryRaces.FaithfulIffNotTorn | internal/history/sqlite.go:99-346 | over every interleaving of the statements of appends and compactions with unlocked resets, the table is faithful for some blocks, and its next index is the log's length, if and only if no operation that the latest reset overtook has written since: an append begun on a non-empty thread, or a compaction |
| HistoryRaces.ResetsApartFaithful | internal/history/sqlite.go:99-346 | with no reset while an operation holds the mutex every run stays faithful |
| HistoryRaces.OvertakenAppend | internal/history/sqlite.go:107-121 | a reset between the two statements of an append leaves the turn at its old index, which is right exactly when the thread was empty |
| HistoryRaces.OvertakenCompact | internal/history/sqlite.go:301-342 | a reset while the summarizer works leaves a summary in a thread without a log, faithful for no blocks |
| HistoryRaces.TearsAreReached | internal/history/sqlite.go:99-346 | both are reached from an empty store by ordinary calls |
| HistoryRaces.ReplacedKeepsTop | internal/history/sqlite.go:250-284 | a compaction of any sorted table keeps its newest row, so a torn table stays ahead of its log |
| HistoryRaces.UninterruptedCalls | internal/history/sqlite.go:99-122 | a call that nothing overtakes is the one step of the sequential store |
| HistoryRaces.DoKeepsInv | internal/history/sqlite.go:99-346 | every statement keeps the table faithful or ahead of its log for good |
| History.RewritesBounded | internal/history/sqlite.go:291-346 | without appends a thread of at most 2^k text turns is summarised at most k times |
| History.WindowsAgreeIff | internal/history/memory.go:34-48 | for every faithful table the two stores return the same window if and only if no turn of the window was condensed and, for the entire thread, it has at most 2^30 turns |
| History.LastRowsAreNewest | internal/history/sqlite.go:126-160 | a window holds as many rows as there are up to its limit, and they are the newest |
| History.SQLiteStore.AppendTurn | internal/history/sqlite.go:99-122 | refuses exactly a missing sid or role, otherwise puts the row behind the others at the next index; other threads untouched |
| History.SQLiteStore.ResetThread | internal/history/sqlite.go:170-176 | one statement empties one thread and no other; what it does to calls under way is in HistoryRaces |
| History.SQLiteStore.SumWords | internal/history/sqlite.go:309-312 | the loop adds up the words of the text rows |
| History.SQLiteStore.PlanCompaction | internal/history/sqlite.go:291-345 | when a compaction takes effect, that what it removes is exactly what the summarizer was asked about, and that it otherwise leaves the table |
| History.SQLiteStore.CompactThread | internal/history/sqlite.go:291-346 | one step of the run, with the same promise; a summariser error or failed transaction changes nothing |
| History.SQLiteStore.DeleteVictims | internal/history/sqlite.go:262-274 | one delete per victim removes exactly the victims |
| History.SQLiteStore.LoadWindow | internal/history/sqlite.go:126-167 | the last n rows in chronological order |
| History.ReverseInPlace | internal/history/sqlite.go:161-165 | the swap loop reverses the array |
| History.MemoryStore.AppendTurn | internal/history/memory.go:21-32 | appends at the thread's length |
| History.MemoryStore.LoadWindow | internal/history/memory.go:36-48 | the last n rows, or all of them |
| History.MemoryStore.ResetThread | internal/history/memory.go:51-56 | empties one thread |
| Approver.FirstAnswerWins | internal/middleware/approver.go:117-169 | over any interleaving Await grants only if the first answer sent to its registration was a grant, and denies only if it was a denial |
| Approver.ForeignStepsHarmless | internal/middleware/approver.go:126-139 | steps of other registrations change nothing for this one, and a channel only ever hears its own id |
| Approver.AnswerIsFinal | internal/middleware/approver.go:133-138 | no later run changes an answer or which answer was first |
| Approver.AnswerGetsThrough | internal/middleware/approver.go:126-169 | an await on a registered id waits, and the first answer then signalled for that id is what it returns |
| Approver.EarlyAnswerIsKept | internal/middleware/approver.go:126-163 | an answer that comes before the await is kept for it, and a later one changes nothing |
| Approver.WaitCanEnd | internal/middleware/approver.go:156-168 | a wait can always end with a timeout or a cancellation as its answer |
| Approver.DoKeepsInv | internal/middleware/approver.go:117-169 | every step keeps the channel invariant |
| Approver.PolicyApprover.constructor | internal/middleware/approver.go:53-77 | without auto-grant exactly the tools named, but for the empty name, need approval |
| Approver.PolicyApprover.AddRequired | internal/middleware/approver.go:71-114 | without auto-grant the tools that need approval are those from before and the non-empty names |
| Approver.PolicyApprover.RegisterId | internal/middleware/approver.go:117-123 | keeps the invariant; an id keeps the channel it has, or gets one of its own that nobody has answered |
| Approver.PolicyApprover.Lookup | internal/middleware/approver.go:126-132 | keeps the invariant; a known id's answer is addressed to the channel registered for that id |
| Approver.PolicyApprover.Send | internal/middleware/approver.go:133-138 | keeps the invariant; the first answer of the channel stays first and no other channel changes |
| Approver.PolicyApprover.BeginAwait | internal/middleware/approver.go:149-155 | an unregistered id is refused at once |
| Approver.PolicyApprover.Receive | internal/middleware/approver.go:158-163 | grants exactly when the first answer ever sent to the channel was a grant |
| Approver.PolicyApprover.CancelId | internal/middleware/approver.go:142-146 | keeps the invariant; the id is released, every other registration keeps its channel |
| TurnLoop.EveryTurnOk | internal/wsserver/middleware.go:137-350 | at every point of every turn both streams are numbered 0,1,2,... without gaps; once over there is exactly one message, the last act, with the turn's usage; every leg got the verdict its streak demands; no dispatch past a closed gate |
| TurnLoop.RetryBudgetHolds | internal/wsserver/middleware.go:297-338 | counted by the results sent to the client: the k-th failure in a row is resumed with attempt k while k <= max, the (max+1)-th escalates with attempt equal to max attempts, its report is the one error report of the turn, and the turn is over; anything else restarts the count |
| TurnLoop.EveryTurnOnWire | internal/wsserver/middleware.go:263-350 | for every script the chunks and thoughts sent are the texts of the events taken, in order, and every leg has the exit and code last sent for its call |
| TurnLoop.StageCloses | internal/wsserver/middleware.go:218-350 | a stage takes its events up to the first that ends it; the turn goes on exactly when that was a call neither aborted nor escalated whose resume worked, and otherwise closes with the final event's text and finish or the stated error |
| TurnLoop.LastEventCloses | internal/wsserver/middleware.go:218-232 | a turn whose last event is final or an error is over and its message says what that event calls for |
| TurnLoop.GoingOnResumed | internal/wsserver/middleware.go:338-344 | while a turn goes on every stage so far ended in a call whose resume worked |
| TurnLoop.EscalatesOnce | internal/wsserver/middleware.go:297-320 | for every script the error reports sent are none, or, exactly when the last tool call escalated, one for that call with attempt and max attempts both max+1; then the turn is over and only its closing message follows |
| TurnLoop.ReportedUsage | internal/wsserver/middleware.go:702-722 | for every script the reported usage is the sum of what the switch counts, over all events consumed in all stages |
| TurnLoop.UsageExactIff | internal/wsserver/middleware.go:271-348 | for non-negative counts it is all the usage the events carried if and only if no event carries usage behind a field tested first |
| TurnLoop.ContractCountsAll | internal/middleware/translator.go:50-79 | events that keep the translator contract lose no usage |
| TurnLoop.AnswersPerCall | internal/wsserver/middleware.go:419-586 | a refused call is answered once, a dispatched one once per exit chunk, and without one it counts as a clean success |
| TurnLoop.MessageErrors | internal/wsserver/middleware.go:218-240 | the only error a turn's message ever names is that the translator stopped early |
| TurnLoop.ErrTextLost | internal/wsserver/middleware.go:271-274 | a turn whose last event is a translator's error is over, and whatever the error's text its message has finish error, no text and no error |
| TurnLoop.CallGated | internal/wsserver/middleware.go:419-586 | one tool call dispatches only after scope, validation, mode and approval passed for that call |
| TurnLoop.DispatchedIff | internal/wsserver/middleware.go:419-586 | a call is dispatched if and only if every gate is open and approval granted where required; what it hands on is then the last exit of its stream and the last result sent |
| TurnLoop.RefusedBecause | internal/wsserver/middleware.go:419-530 | approval is asked for exactly when only it can still stop the call, and each refusal code has its own condition |
| TurnLoop.DispatchWasApproved | internal/wsserver/middleware.go:366-405 | joined with the approver's runs: a tool that needs approval is dispatched only if the first answer sent for that same call was a grant |
| TurnLoop.RetryBudget.constructor | internal/middleware/recovery.go:99-104 | a negative budget is none |
| TurnLoop.RetryBudget.Consume | internal/middleware/recovery.go:120-132 | counts every failure, and says whether it is within the budget |
| TurnLoop.TurnRunner.constructor | internal/wsserver/middleware.go:137-160 | a turn starts with nothing said and a full budget |
| TurnLoop.TurnRunner.HandleCall | internal/wsserver/middleware.go:285-345 | the tool-call case does the specified call, verdict and resume |
| TurnLoop.TurnRunner.HandleEvent | internal/wsserver/middleware.go:263-350 | one event is one specified step |
| TurnLoop.TurnRunner.ConsumeStage | internal/wsserver/middleware.go:263-350 | the event loop is the specified fold of the stage |
| TurnLoop.TurnRunner.EmitMessage | internal/wsserver/middleware.go:654-692 | closes the turn with its one message |
| TurnLoop.TurnRunner.RunIntent | internal/wsserver/middleware.go:137-243 | the stage loop is the specified turn, and a failure before the first stage is one error message |
| LspFraming.FrameRoundTrip | internal/sandbox/lsp.go:70-112 | any frame, with any other headers before and after its length, reads back as its body and leaves exactly what follows |
| LspFraming.PlainFrame | internal/sandbox/lsp.go:70-80 | what the writer writes is such a frame with no other headers, so both round trips cover it |
| LspFraming.WrittenBytes | internal/sandbox/lsp.go:70-80 | the bytes written, literally |
| LspFraming.StreamRoundTrip | internal/sandbox/lsp.go:70-112 | reading the concatenation of any frames gives the bodies in order and uses the stream up |
| LspFraming.CutFrameFails | internal/sandbox/lsp.go:84-112 | a frame with any other headers cut off anywhere is an error, never a shorter message |
| LspFraming.CutStream | internal/sandbox/lsp.go:84-112 | a stream cut at any byte gives exactly the bodies of the frames wholly before it and leaves the rest |
| LspFraming.FrameExtends | internal/sandbox/lsp.go:84-112 | what is read off a stream is read off every longer one, with the rest behind it |
| LspFraming.FrameIsCutOff | internal/sandbox/lsp.go:84-112 | every successful read of any stream takes its body and leaves a proper tail |
| LspFraming.OthersSkipped | internal/sandbox/lsp.go:95-103 | other headers change nothing |
| LspFraming.LengthStep | internal/sandbox/lsp.go:95-101 | the decimal length printed is the length parsed |
| LspFraming.BadHeaderFails | internal/sandbox/lsp.go:104-106 | a header block without a length is an error |
| LspFraming.AtoiReads | internal/sandbox/lsp.go:96-100 | lengths are signed decimals in the 64-bit range |
| LspFraming.AtoiRefuses | internal/sandbox/lsp.go:96-100 | anything else is refused |
| LspFraming.Reader.Next | internal/sandbox/lsp.go:84-112 | the header loop and the body read are the specified frame reader |
| LspDemux.OneResponseEach | internal/sandbox/lsp.go:262-276 | over any interleaving each request gets at most one response, always its own id's, and is pending exactly while in flight and unanswered |
| LspDemux.SendNeverBlocks | internal/sandbox/lsp.go:273-275 | whenever a response is about to be sent its one-slot channel is empty |
| LspDemux.RoutedReachesWaiter | internal/sandbox/lsp.go:262-276 | a routed response whose request still waits is on its way or in the channel, never lost |
| LspDemux.CallsArePermanent | internal/sandbox/lsp.go:316-358 | ids are never reused and a returned call never changes |
| LspDemux.ResponseGetsThrough | internal/sandbox/lsp.go:262-358 | a request on an open server whose response comes returns exactly that response |
| LspDemux.ClosedEndsWaiting | internal/sandbox/lsp.go:284-352 | once closed no request begins and every waiting one can return |
| LspDemux.DoKeepsInv | internal/sandbox/lsp.go:262-358 | every step keeps the invariant |
| LspDemux.LSPServer.constructor | internal/sandbox/lsp.go:143-175 | nothing in flight |
| LspDemux.LSPServer.BeginRequest | internal/sandbox/lsp.go:316-327 | a fresh id never used before, or a refusal without one once closed |
| LspDemux.LSPServer.TakePending | internal/sandbox/lsp.go:262-272 | exactly the pending ids are taken; unknown and repeated ones are dropped |
| LspDemux.LSPServer.SendToWaiter | internal/sandbox/lsp.go:273-275 | the send goes into an empty slot |
| LspDemux.LSPServer.ReceiveAnswer | internal/sandbox/lsp.go:353-357 | the answer received carries the request's id |
| LspDemux.LSPServer.Cleanup | internal/sandbox/lsp.go:329-352 | giving up takes the id off pending |
| LspDemux.LSPServer.MarkClosed | internal/sandbox/lsp.go:284-291 | the server is closed and no request is touched |
| LineSplitter.SplitIsStretch | internal/sandbox/daemon.go:248-265 | a token stands for exactly the bytes advanced over: at least one, at most max in the token, capped means exactly max, and an uncapped one has lost the carriage return before its end; without a token there is no newline and less than max |
| LineSplitter.LinesIndependentIff | internal/sandbox/daemon.go:203-265 | all readers get the same lines if and only if no newline-terminated line has a length that is a positive multiple of the cap, and then they are those of one read |
| LineSplitter.ReadersDiffer | internal/sandbox/daemon.go:248-258 | for a stream with such a line, a reader of single bytes and one that reads two bytes once get different lines |
| LineSplitter.DecidedIff | internal/sandbox/daemon.go:252-258 | a position where the newline follows exactly the cap is reached if and only if there is such a line |
| LineSplitter.LinesCut | internal/sandbox/daemon.go:203-219 | for every reader the lines with their stripped terminators are the stream |
| LineSplitter.NextIsStretch | internal/sandbox/daemon.go:203-219 | one scan takes a nonempty stretch off the front of what is left, and ends only when nothing is left |
| LineSplitter.GluedIsStream | internal/sandbox/daemon.go:203-219 | for every way of reading, gluing capped pieces back gives a stream without carriage returns exactly, up to a missing final newline |
| LineSplitter.CappedSplitter.Split | internal/sandbox/daemon.go:248-265 | the split method and its capped flag are the specified cut |
| LineSplitter.Scanner.Fill | internal/sandbox/daemon.go:203-209 | making room and reading never meets a buffer full of one token |
| LineSplitter.Scanner.Scan | internal/sandbox/daemon.go:203-219 | one scan ends with the specified next line and never reports a token too long |
| LineSplitter.ScanPipe | internal/sandbox/daemon.go:203-219 | for every stream and every sizes of reads the loop ends, the lines with their stripped terminators are the stream, none exceeds the cap, and they are those of one read unless some line has a full length |
| WorkerPool.CleanScopeInside | internal/middleware/workerpool.go:228-241 | an accepted entry has only names as segments, names what was declared, and is a fixed point of cleaning |
| WorkerPool.CleanFixed | internal/middleware/workerpool.go:236 | normal forms of path cleaning are its fixed points |
| WorkerPool.CleanSkips | internal/middleware/workerpool.go:236 | empty segments and dots vanish from a path |
| WorkerPool.CleanCancels | internal/middleware/workerpool.go:236 | a name vanishes together with the parent segment behind it |
| WorkerPool.CleanWalks | internal/middleware/workerpool.go:236-239 | a cleaned path starts with a parent exactly when walking it climbs above its start, and otherwise has as many names as the walk is deep |
| WorkerPool.AcceptedIff | internal/middleware/workerpool.go:228-241 | an entry is accepted if and only if, trimmed, it is relative, never climbs above the workspace and ends below it |
| WorkerPool.UnderIff | internal/middleware/workerpool.go:260-267 | the string prefix test is the segment prefix test |
| WorkerPool.DisjointScopes | internal/middleware/workerpool.go:246-255 | if no entries clash then no path of one scope equals, contains or lies under a path of the other |
| WorkerPool.OverlapIff | internal/middleware/workerpool.go:246-255 | scopes are called overlapping if and only if some path is in both |
| WorkerPool.TasksDisjoint | internal/middleware/workerpool.go:172-181 | the same for every two tasks of an accepted pool |
| WorkerPool.ParseTaskPaths | internal/middleware/workerpool.go:186-204 | cleaned paths, or no list would do |
| WorkerPool.ValidateTaskID | internal/middleware/workerpool.go:208-224 | accepts exactly the safe ids |
| WorkerPool.ParseTask | internal/middleware/workerpool.go:144-166 | the decoded task, or no task would do |
| WorkerPool.DecodeTasks | internal/middleware/workerpool.go:141-170 | all tasks with distinct ids, or none would do |
| WorkerPool.FindOverlap | internal/middleware/workerpool.go:246-255 | finds a clash exactly when there is one |
| WorkerPool.CheckDisjoint | internal/middleware/workerpool.go:172-181 | the pairwise loops decide disjointness |
| WorkerPool.ParseWorkerPoolArgs | internal/middleware/workerpool.go:130-183 | accepted exactly when some task list meets every promise, and then that list is returned |
| WorkerMerge.ReadHasTree | internal/gitctl/git.go:259-268 | whatever renames git finds in a tree, the reading against the base has exactly the files of the tree, and no two at one path |
| WorkerMerge.NamesOfTree | internal/gitctl/git.go:259-268 | the listing of a tree is every path that differs from the base, but for the old names of renames |
| WorkerMerge.NothingNamedIff | internal/gitctl/git.go:220-243 | it is empty exactly when the tree is the base, so nothing is committed |
| WorkerMerge.MergeOne | internal/wsserver/workerpool.go:154-205 | merging a worker that collides with none merged before cannot conflict, in content, in place or between a file and a directory, and adds exactly its changes |
| WorkerMerge.MergeConflicts | internal/gitctl/git.go:281-305 | merging one that collides does conflict |
| WorkerMerge.CollideIffMoved | internal/wsserver/workerpool.go:156-161 | in a pool with disjoint scopes two workers collide exactly when one moved a file that the other deleted, moved, or rewrote differently from the move |
| WorkerMerge.ConflictIff | internal/wsserver/workerpool.go:156-200 | a worker that passes every check conflicts exactly when git stops its merge or there is such a file between it and one merged before |
| WorkerMerge.OutcomesMean | internal/wsserver/workerpool.go:162-204 | the exact condition of each of the other outcomes, and that exactly the workers reported merged are merged |
| WorkerMerge.OwnMovesNeverConflict | internal/wsserver/workerpool.go:156-161 | workers that move only files of their own scopes never conflict |
| WorkerMerge.MovedAndDeletedConflicts | internal/wsserver/workerpool.go:156-161 | a pool in which a file deleted by its own worker is moved by another passes every check and conflicts |
| WorkerMerge.MovedAndRewrittenMerges | internal/gitctl/git.go:281-284 | a file rewritten by one side and moved by the other merges to the new content at the new path, in either order |
| WorkerMerge.AnyOrderMerges | internal/wsserver/workerpool.go:154-205 | workers that place nothing at nested paths and do not collide merge in every order without conflict, and each order ends as the base with every worker's changes |
| WorkerMerge.OrderIrrelevant | internal/wsserver/workerpool.go:154-205 | two orders give the same commit |
| WorkerMerge.OverlayUnique | internal/wsserver/workerpool.go:154-205 | that commit is unique: each base file is gone, moved and rewritten exactly as some worker did, and the new files are those added |
| WorkerMerge.OverlaySound | internal/wsserver/workerpool.go:154-205 | no two files end up at one path, and none as a directory of another |
| WorkerMerge.ScopesPlaceApart | internal/wsserver/workerpool.go:187-193 | what two mergeable workers add or move is never put at the same or nested paths |
| WorkerMerge.AcceptedApart | internal/wsserver/workerpool.go:187-193 | disjoint scopes and the scope check keep all merged changes apart |
| WorkerMerge.AllInScope | internal/wsserver/workerpool.go:497-505 | passes exactly when every listed file is in scope |
| WorkerMerge.Repo.Settle | internal/wsserver/workerpool.go:162-204 | one turn of the loop gives each worker the specified outcome |
| WorkerMerge.Repo.MergeBack | internal/wsserver/workerpool.go:154-205 | every worker gets the outcome of ConflictIff and of the checks before it, exactly the others that pass are merged, the branch ends as the base with exactly their changes, following their moves, and no path is a file and a directory |
| Outbox.OutboxConserves | internal/wireclient/session.go:121-288 | in every run the k-th intent accepted is the k-th to leave the queue; the rest is in a drain or queued within the cap; none is abandoned before Close; none is dropped unless cap newer ones were accepted |
| Outbox.RequeueFindsEmpty | internal/wireclient/session.go:276-285 | during a drain nothing is queued, so the re-queue finds an empty outbox |
| Outbox.ReconnectReachesDrain | internal/wireclient/session.go:172-240 | a loop that dials and is welcomed comes to its drain with the queue as it was |
| Outbox.LostConnectionQueues | internal/wireclient/session.go:121-240 | after a lost connection an intent is queued last again and the loop goes back to dialling |
| Outbox.DoKeepsInv | internal/wireclient/session.go:121-240 | every step of Send, Close and the loop keeps the invariant |
| Outbox.CapOf | internal/wireclient/session.go:90-92 | a positive cap is kept, any other becomes 64 |
| Outbox.Session.constructor | internal/wireclient/session.go:89-107 | an empty, idle session |
| Outbox.Session.SendEnvelope | internal/wireclient/session.go:121-141 | queued exactly when offline, not closed and an intent; then it is last in the queue |
| Outbox.Session.DrainOutbox | internal/wireclient/session.go:266-288 | a drain is a run that writes a prefix of the queue in order and leaves exactly the rest, and with working writes leaves nothing |
| Outbox.Session.WriteAll | internal/wireclient/session.go:275-287 | the write loop stops at the first failed write |
| Outbox.Session.WriteOne | internal/wireclient/session.go:276-285 | a failed write puts the rest back in front |
| Outbox.Session.CloseSession | internal/wireclient/session.go:161-170 | closing takes the connection away and leaves the queue |
| TokenRevocation.SpentStaysSpent | internal/wsserver/auth_handlers.go:28-156 | after a token is exchanged or revoked, no run of time, pruning and other requests makes it parse again, and no token with a jti is exchanged twice |
| TokenRevocation.ExchangeAgainIff | internal/wsserver/auth_handlers.go:79-84 | exactly when an exchanged token could be exchanged again at once |
| TokenRevocation.AcceptsIff | internal/auth/jwt.go:114-187 | over the token's own fields, exactly which tokens each of the three parsers accepts, and that the claims are the token's |
| TokenRevocation.RefusedBecause | internal/auth/jwt.go:114-187 | a token is of the wrong kind exactly when only its kind is wrong, and revoked exactly when only its listing is |
| TokenRevocation.PrunedInTime | internal/auth/revocation.go:96-107 | an entry is prunable at the latest one second after its token's expiry, and one without an expiry not for a hundred years |
| TokenRevocation.PrunedIsExpired | internal/auth/revocation.go:96-107 | a pruned entry belongs to a token past its expiry, also with the seconds of the table |
| TokenRevocation.DoKeepsInv | internal/wsserver/auth_handlers.go:28-156 | every step keeps spent tokens listed or expired |
| TokenRevocation.BlockedNeverParses | internal/auth/jwt.go:114-187 | a listed or expired token is refused by all three parsers |
| TokenRaces.TwiceIffOverlapped | internal/wsserver/auth_handlers.go:47-84 | over every interleaving of handlers, clock and janitor a token with a jti is exchanged twice if and only if two of its requests overlapped, each having parsed it before the other's write |
| TokenRaces.OverlapExchangesTwice | internal/wsserver/auth_handlers.go:47-84 | two requests that both parse before either writes are both answered |
| TokenRaces.RequestsApartOnce | internal/wsserver/auth_handlers.go:47-84 | when no token is parsed while another handler is between its parse and its write of it, each is exchanged at most once |
| TokenRaces.WrittenStaysSpent | internal/wsserver/auth_handlers.go:79-84 | from the write on, no interleaving makes the token parse again |
| TokenRaces.UninterruptedRequest | internal/wsserver/auth_handlers.go:28-101 | a request that nothing comes between is the one step of the sequential model |
| TokenRaces.UninterruptedRevoke | internal/wsserver/auth_handlers.go:108-156 | the same for a revocation, after which the token is spent |
| TokenRaces.DoKeepsInv | internal/wsserver/auth_handlers.go:28-156 | every parse, write, tick and prune keeps spent tokens blocked and every exchange off the tokens exchanged before its parse |
| TokenRevocation.RevocationList.Insert | internal/auth/revocation.go:170-187 | the entry is listed with the stored expiry and no other entry changes |
| TokenRevocation.RevocationList.PruneExpired | internal/auth/revocation.go:96-107 | the loop removes exactly the prunable entries and counts them |
| TokenRevocation.AuthServer.constructor | internal/auth/jwt.go:80-101 | the secrets are the non-empty ones |
| TokenRevocation.AuthServer.ParseCtx | internal/auth/jwt.go:114-161 | trying the secrets in order accepts exactly a token with one of the keys, unexpired, complete and not revoked, and returns its claims |
| TokenRevocation.AuthServer.ParseAccess | internal/auth/jwt.go:166-175 | accepts exactly such tokens without a kind or of kind access |
| TokenRevocation.AuthServer.ParseRefresh | internal/auth/jwt.go:178-187 | accepts exactly such tokens of kind refresh |
| TokenRevocation.AuthServer.RefreshHandler | internal/wsserver/auth_handlers.go:28-101 | a pair is minted exactly for an acceptable refresh token when signing works; the token is then exchanged, spent and, with a working write, listed; otherwise nothing changes |
| TokenRevocation.AuthServer.RevokeHandler | internal/wsserver/auth_handlers.go:108-156 | succeeds exactly on an acceptable token with a jti that it lists or that is listed already |

## Left out

- ParseWorkerPoolArgs: states exactly when the arguments are refused, not which of the error messages is given; the same holds for ParseTask, ParseTaskPaths and DecodeTasks.
- Wire I/O, HTTP, Docker, subprocesses, LLM SDKs, JSON encoding, metrics, tracing, audit and UI: parameters or choices of step where a model needs their outcome.
- SQLite itself: a table is a sequence of rows, and writes succeed except where an outcome is a parameter (compaction's commit, the revocation write). Persist errors of the session store are not modelled.
- git itself: a merge is three-way, file by file, and follows moves; merging inside one file is not modelled, so two different rewritings of one file conflict. Which files count as moved is given with each commit, and the branch keeps the moves it merged. Names that git quotes in its listing are not modelled.
- Repo.MergeBack: whether git stops a merge for a reason outside the files (an unreadable ref, or its guess that a whole directory moved when the other side adds a file to it) is a parameter, because the guess weighs all names of a directory; the code reports every such stop as a conflict, and so does the model.
- Reader.Next: a Content-Length beyond what the allocator allows is a short body here; the Go code panics when it allocates the buffer (internal/sandbox/lsp.go:107).
- FaithfulIffNotTorn: the text of a summary is a parameter there; what it summarises is stated for whole calls (BlocksAreAnswers).
- UTF-8 and white space beyond ASCII: strings are bytes, and TrimSpace strips ASCII white space only.
- Integer widths: counters and sizes are unbounded, except the int range of Content-Length and the 2^30 row limit of LoadWindow.
- Concurrent appends to one session and Drop during an append: the persist hook runs outside the session's mutex, so appends to one session follow each other here, statement by statement.
- Delivery of every event to a live client: the server drops when a client's send channel is full.
- Resumption on the client: the hello it reads overwrites the id it would resume from, so no replay to this client is claimed.
- Global order of the client: the status is open before the drain, so a direct Send may overtake queued intents.
- A write that reports an error but reached the server: Outbox calls a write written when it reports success.
- Backoff times, jitter and read deadlines.
- The non-blocking send of daemon lines and its overflow marker, and a reader that keeps returning no bytes.
- Idle sweeps, janitor timers, pins, docs fetching, and the other file tools (read, list, write patch): each is one lookup or one write, with no state that later calls depend on.
- Command chunk frames and stderr truncation in error reports: they add no state to the turn.
- A restart of the in-memory revocation list and failing revocation lookups. In TokenRaces a jti belongs to one expiry, as the issuer mints it, and revocation writes succeed.
- Running the sub-dispatchers of a worker pool and creating their worktrees: a worker is its result and its tree.
- Isolation through sanitised session ids: the sanitiser is not injective.
