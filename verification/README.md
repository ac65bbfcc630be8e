# Verified model of the Tempest coding agent

Tempest is a coding agent written in Go: it streams a model's reply, runs the tools the reply asks for, edits files, and
keeps a session on disk. This project models the algorithms and protocols at its centre and proves what they promise.

`dafny verify dfyconfig.toml` checks everything. One module stands for one component:

| module | component |
|---|---|
| `Utf8`, `LineText`, `Truncate`, `RollingTail`, `ToolOutput` | command output: a rolling tail and counters stand for the whole output |
| `FileMutations` | one lock per path, shared by reference count |
| `Splice`, `StableSort`, `LinePreserving`, `EditEngine`, `LineDiff` | find-and-replace edits and the line diff |
| `ToolExecutor`, `AgentLoop` | tool batches, the turn loop and the agent's event-built transcript |
| `Retry` | retrying a provider stream while nothing of it was seen |
| `Compaction`, `Transform` | cutting, summarizing and repairing a history |
| `EventStream`, `AssistantBuilder`, `OpenAIFold`, `AnthropicFold`, `GoogleFold` | event delivery, and the two folds that must agree |
| `ServerSentEvents`, `JsonRepair` | the incremental event parser and the byte-level repair |
| `Journal` | the append-only session file and its recovery |

## How the model is built

Where the program changes state step by step, the model is a class or a loop proved against a specification function;
the properties are then lemmas about that function. Goroutines are the steps of a state machine, and its invariants hold
for every interleaving. A stream, a provider or a tool is a value that says what it will do, so a statement about all
values is one about all behaviours.

What the program takes from outside is a parameter: Unicode normalization (only its idempotence is used), the JSON codec of
the journal (decoding inverts encoding, an encoding is one line, no proper prefix of it decodes), streaming and final JSON
parsing, token counts, the summarizer, the renaming of tool-call identifiers, the file system's answer to each call, and
the classification of provider errors.

## Main results

- Output: the decoded text depends only on the bytes, and a snapshot of the rolling tail is the truncation of the whole
  output, with the one exception stated exactly (`ToolOutput.OutputAccumulator.Finish`, `RollingTail.SnapshotAgrees`).
- Locks: one running function per key, exact reference counts, no deadlock (`FileMutations.RunInv`,
  `FileMutations.Progress`).
- Edits: an edit that could go to two places is refused, and every refusal is exact
  (`EditEngine.RefusesTheFirstProblem`, `EditEngine.OverlapsExactly`); the order of edits does not matter, the exact
  path is a simultaneous substitution with an undo, untouched lines survive verbatim
  (`EditEngine.OrderOfEditsDoesNotMatter`, `EditEngine.ExactEditsSubstitute`, `LinePreserving.UnchangedLinesSurvive`),
  and the diff is lossless and longest (`LineDiff.DiffLines`).
- Tools: every interleaving of a batch is legal and matches running in order (`ToolExecutor.ParallelIsLegal`,
  `ToolExecutor.ParallelMatchesSequential`).
- Runs: the loop plays the reference's turns, and both histories agree at every turn end exactly when streams start once
  (`AgentLoop.Agent.RunLoop`, `AgentLoop.TurnEndsAgree`); which turn comes next is decided by tools, steering and
  follow-ups, in that order (`AgentLoop.RunFollows`); no queued message is lost
  (`AgentLoop.QueuedMessagesConserved`), and the events are well nested (`AgentLoop.RunIsNested`).
- Retries: only the last attempt shows anything, nothing is retried once seen, and how the stream ends is exact
  (`Retry.TraceIsSafe`, `Retry.RunShowsOneAttempt`, `Retry.FinishedMeans`).
- Histories: compaction cuts where the budget says and conserves the conversation and its pairing
  (`Compaction.CompactionMeans`, `Compaction.ConversationConserved`, `Compaction.CompactedIsSound`); rewriting keeps all
  but what it must drop (`Transform.RewritingMeans`, `Transform.MessagesMean`); the repaired transcript answers every
  call, exactly once under an exact condition (`Transform.ReplyIsFollowedBy`, `Transform.ExactlyOneAnswer`,
  `Transform.SecondPassIsIdempotent`).
- Streams: delivery is faithful under every schedule (`EventStream.DeliveryIsFaithful`); for each provider the folded
  events give the message (`OpenAIFold.Fold.Finalize`, `AnthropicFold.Fold.FoldStream`, `GoogleFold.Fold.FoldChunk`),
  and the message is what the provider sent (`OpenAIFold.Fold.CallsMean`, `AnthropicFold.Fold.FoldStream`,
  `GoogleFold.PartsAreSaid`); the parser gives back what was sent and does not depend on the reads
  (`ServerSentEvents.SentIsReceived`, `ServerSentEvents.SplitsDoNotMatter`); the repair of JSON strings is
  idempotent and faithful (`JsonRepair.RepairIsIdempotent`).
- Journal: after any appends and crashes loading gives exactly the messages saved in full, in order, across compactions
  (`Journal.JournalIsFaithful`, `Journal.LoadsWhatWasSaved`, `Journal.LoadsTheCompacted`).

## Where the code falls short of the plain statement

Some natural statements are false at an edge. For each there is a concrete case and the exact condition.

- A snapshot of truncated output shows the end of the output, unless the retained tail starts inside a line whose newline
  is the tail's last byte: then it shows nothing (`RollingTail.SnapshotAgrees`, `RollingTail.SwallowedExample`).
- An edit whose old text occurs at two places that do not overlap is refused; a text that is empty in normal form counts
  as such in every content but one that is empty in normal form, too (`EditEngine.PlaceMeans`,
  `EditEngine.BlankEditExample`).
- After the transcript repair a call has exactly one answer, unless a dropped reply stands between the call and a result
  for it: then it has two (`Transform.ExactlyOneAnswer`, `Transform.LateResultExample`).
- Renaming call identifiers keeps the pairing exactly when no orphaned result bears a new identifier
  (`Transform.RenamingKeepsPairing`, `Transform.OrphanExample`).
- The kept messages fit the budget exactly when the budget was never reached or a cut point lies at or after the place
  where it was (`Compaction.BudgetKept`, `Compaction.OverBudgetExample`).
- The loop's context and the agent's transcript agree at every turn end exactly when each provider stream has at most one
  start event (`AgentLoop.TurnEndsAgree`, `AgentLoop.TwoStartsExample`).
- A call's argument text is what was sent for its index, at every point, exactly when no piece with text resolves to a
  call of another stream index; an identifier seen under two indices breaks it (`OpenAIFold.PerIndexExactly`,
  `OpenAIFold.SharedIdExample`).
- Made-up Gemini call identifiers keep the identifiers distinct exactly when none of them is in use already
  (`GoogleFold.DistinctExactly`, `GoogleFold.MadeUpIdExample`).
- A read that ends between a carriage return and its newline dispatches an event early exactly when something is pending
  and text follows on the next line (`ServerSentEvents.CutMatters`, `ServerSentEvents.CutExample`).
- A write cut exactly between a record and its newline puts the next record on the same line, and loading then loses both
  (`Journal.TornExactly`); short writes on a store that stays open lose the journal exactly when something is written
  after a record that followed an unfinished one (`Journal.ShortWritesLoad`).

## Model

| member | source | states |
|---|---|---|
| Utf8.DecodeEncoded | internal/toolio/toolio.go:247-267 | Every Unicode scalar value decodes back from its UTF-8 encoding, whatever bytes follow (section 4 of RFC 3629). |
| Utf8.EncodeDecoded | internal/toolio/toolio.go:247-267 | Re-encoding a decoded rune gives back its bytes, or U+FFFD in place of exactly one ill-formed byte. |
| Utf8.SettledSplit | internal/toolio/toolio.go:247-267 | Decoding what can be decided now, and the rest from the bytes kept back, equals decoding all bytes at once, for every split. |
| Utf8.RunesOfEncoded | internal/toolio/toolio.go:247-267 | Decoding the encodings of any scalar values gives those values back. |
| Utf8.DecodeAllRepairs | internal/toolio/toolio.go:247-267 | Decoding always yields well-formed UTF-8, and changes the bytes exactly when they are not well-formed. |
| Utf8.EncodedAligned | internal/toolio/toolio.go:303-321 | In encoded text no character starts with a continuation byte, none follows a newline, and at most three stand in a row: what cutting at a byte position relies on. |
| LineText.JoinSplit | internal/truncate/truncate.go:165-174 | Splitting at newlines and joining again is the identity. |
| LineText.SplitLinesAreLines | internal/truncate/truncate.go:165-174 | The counting rule (split, drop the piece after a final newline) gives the lines of the text, each ended by a newline or by the end. |
| LineText.JoinLines | internal/truncate/truncate.go:111-150 | Joining the counted lines gives the text back less one final newline. |
| LineText.LineCount | internal/truncate/truncate.go:165-174 | The number of lines is the number of newlines, plus one for an open last line. |
| Truncate.TruncateStringToBytesFromEnd | internal/truncate/truncate.go:177-190 | Keeps the longest end of the text within the byte limit that starts a character. |
| Truncate.KeepFromEnd | internal/truncate/truncate.go:127-147 | The scan from the last line back keeps the most last lines that fit both limits, or the end of a last line that is too long, and gives the reason. |
| Truncate.Tail | internal/truncate/truncate.go:111-150 | The whole result: content, totals, kept lines and bytes, whether the last line is cut, and which limit cut it. |
| Truncate.TailContentMeans | internal/truncate/truncate.go:111-150 | What is kept, in terms of the lines: all of a text within the limits; the longest end of a last line that is too long; else last lines to which the next would be one too many or, with its newline, too many bytes. |
| Truncate.ReasonMeans | internal/truncate/truncate.go:127-147 | Bytes are named as the reason if and only if they ran out before the lines did; a cut last line counts as one line. |
| Truncate.KeptTailSuffix | internal/truncate/truncate.go:111-150 | What is kept depends only on the lines a cut can reach: lines in front of them change nothing. |
| RollingTail.RetainedTrimmed | internal/toolio/toolio.go:306-321 | Trimming keeps a tail that ends the text, starts a character, misses only continuation bytes of the window, and knows whether it starts a line. |
| RollingTail.SnapshotAgrees | internal/toolio/toolio.go:206-229 | Truncating the rolling tail gives what truncating the whole output gives, up to one final newline, if and only if the tail is not a swallowed one (it starts inside a line and its only newline is its last byte) that had something to show; from four bytes on a swallowed tail always had. |
| RollingTail.SwallowedShowsNothing | internal/toolio/toolio.go:324-339 | The exception, exactly: of a swallowed tail nothing is shown, and of the whole output something is, unless the bytes due are all continuation bytes. |
| RollingTail.SwallowedExample | internal/toolio/toolio.go:324-339 | A concrete output of 17 bytes with a limit of four for which the snapshot shows nothing. |
| RollingTail.NegativeLimitKeepsNothing | internal/toolio/toolio.go:206-229 | A byte limit below zero keeps nothing, of the tail as of the whole output. |
| ToolOutput.SettledAppend | internal/toolio/toolio.go:247-267 | Settling some bytes and then the rest settles what settling all at once does, and leaves the same bytes pending. |
| ToolOutput.DecodeAppend | internal/toolio/toolio.go:247-267 | Appended bytes decode, together with those pending, to exactly what the text grows by. |
| ToolOutput.OutputAccumulator.constructor | internal/toolio/toolio.go:145-163 | A new accumulator satisfies the invariant, with zero limits replaced by the defaults. |
| ToolOutput.OutputAccumulator.Decode | internal/toolio/toolio.go:247-267 | Decodes everything that is decided, or everything at the end, and keeps exactly the undecided bytes. |
| ToolOutput.OutputAccumulator.TrimTail | internal/toolio/toolio.go:306-321 | The tail stays a retained end of the text and is no longer than the rolling limit. |
| ToolOutput.OutputAccumulator.AppendToTail | internal/toolio/toolio.go:270-279 | The tail grows by the piece and never exceeds twice the rolling limit. |
| ToolOutput.OutputAccumulator.CountLines | internal/toolio/toolio.go:281-302 | All line counters describe the whole text after the piece. |
| ToolOutput.OutputAccumulator.AppendDecodedText | internal/toolio/toolio.go:270-303 | Tail and counters describe the text with the piece appended. |
| ToolOutput.OutputAccumulator.EnsureTempFile | internal/toolio/toolio.go:346-364 | Opens the spill file once and moves the collected chunks into it in order; a failure loses the file and says so. |
| ToolOutput.OutputAccumulator.Append | internal/toolio/toolio.go:166-190 | The invariant holds: the decoded text depends only on the bytes appended so far, and chunks or file hold all of them in order unless a file operation failed or the file was closed early; appending after the finish changes nothing. |
| ToolOutput.OutputAccumulator.Finish | internal/toolio/toolio.go:193-203 | The text is what the concatenated bytes decode to, however they were split. |
| ToolOutput.OutputAccumulator.GetSnapshotText | internal/toolio/toolio.go:324-339 | The tail from its first whole line on, if it starts inside a line and holds one. |
| ToolOutput.OutputAccumulator.ShownAgrees | internal/toolio/toolio.go:206-229 | Counters and shown text agree with the whole text: totals, the truncated flag, and the content up to one newline, if and only if no swallowed tail had something to show. |
| ToolOutput.OutputAccumulator.Snapshot | internal/toolio/toolio.go:206-229 | Totals and flag are those of the full output; the content is that of truncating the full output up to one newline if and only if the tail is not a swallowed one with something to show; the reason and the kept counts are those of the shown text; a truncated snapshot comes with the full file. |
| ToolOutput.OutputAccumulator.GetLastLineBytes | internal/toolio/toolio.go:242-244 | The byte length of the text after its last newline. |
| FileMutations.FileMutationQueue.Acquire | internal/toolio/toolio.go:65-75 | The caller gets the one lock under its key, with one more reference; no other lock changes. |
| FileMutations.FileMutationQueue.Release | internal/toolio/toolio.go:78-85 | One reference fewer, and the lock leaves the table exactly when it was the last and the table holds it. |
| FileMutations.InvNext | internal/toolio/toolio.go:46-85 | Every step of every thread keeps: one live lock per key, counts equal to users, no idle lock in the table, a held mutex belongs to the running thread. |
| FileMutations.RunInv | internal/toolio/toolio.go:46-85 | The invariant holds in every state of every interleaving. |
| FileMutations.MutualExclusion | internal/toolio/toolio.go:46-62 | No two threads ever run their functions under one key. |
| FileMutations.ReferencesAreExact | internal/toolio/toolio.go:65-85 | A lock's count is the number of threads that hold a reference, a key never has two live locks, and the table is empty when all threads are idle. |
| FileMutations.ReleaseFindsItsLock | internal/toolio/toolio.go:78-85 | The table still leads to the lock a thread gives up. |
| FileMutations.Progress | internal/toolio/toolio.go:46-62 | While some thread is busy, some thread can move: no deadlock. |
| LineDiff.BestIsUpperBound | internal/editdiff/editdiff.go:585-596 | No common subsequence is longer than the table entry. |
| LineDiff.FillTable | internal/editdiff/editdiff.go:585-596 | The table holds the recurrence's value at every place. |
| LineDiff.DiffLines | internal/editdiff/editdiff.go:578-629 | Parts that are not added spell the old lines, those not removed the new lines, neighbours differ in kind, removed lines come before the added ones in their place, and the unchanged lines are a longest common subsequence. |
| Splice.SubstituteCut | internal/editdiff/editdiff.go:505-513 | A cut that no region crosses cuts the simultaneous substitution in two. |
| Splice.SubstituteSlice | internal/editdiff/editdiff.go:306-322 | Substituting within a stretch depends only on that stretch and its own replacements. |
| Splice.ApplyReplacements | internal/editdiff/editdiff.go:505-513 | Splicing from the last replacement to the first gives the simultaneous substitution of all regions. |
| Splice.SubstituteLength | internal/editdiff/editdiff.go:505-513 | The result's length is the base's plus what each replacement adds or removes. |
| Splice.UndoRestores | internal/editdiff/editdiff.go:505-513 | Putting back what each region held, where the region is now, restores the base exactly. |
| Splice.UndoExists | internal/editdiff/editdiff.go:505-513 | Every set of disjoint replacements has such an undo. |
| StableSort.SortedIs | internal/editdiff/editdiff.go:551-566 | The sort is ascending and a permutation. |
| StableSort.SortedIsStable | internal/editdiff/editdiff.go:551-566 | Elements with equal keys keep their order. |
| StableSort.AscendingIsUnique | internal/editdiff/editdiff.go:551-566 | With distinct keys there is only one ascending order of the same elements. |
| StableSort.SiftDown | internal/editdiff/editdiff.go:551-566 | Moving one element down by swaps inserts it into the sorted prefix and leaves the rest alone. |
| StableSort.InsertionSort | internal/editdiff/editdiff.go:551-566 | The in-place sort leaves the array as the stable sort of what it held. |
| LinePreserving.LinesRejoin | internal/editdiff/editdiff.go:454-463 | The lines with their endings, one after the other, are the text; none is empty. |
| LinePreserving.SpansTile | internal/editdiff/editdiff.go:466-475 | The spans cut the text into exactly its lines, with nothing left out. |
| LinePreserving.GetLineSpans | internal/editdiff/editdiff.go:466-475 | The spans are the lines' offsets. |
| LinePreserving.GetReplacementLineRange | internal/editdiff/editdiff.go:479-500 | The range found by the two scans is the reference's. |
| LinePreserving.LineRangeIs | internal/editdiff/editdiff.go:479-500 | A replacement has a range if and only if it lies in the text, and the range is exactly the lines it touches. |
| LinePreserving.TouchesMeans | internal/editdiff/editdiff.go:477-500 | A line is touched if and only if one of its bytes is replaced or has the new text put in front of it. |
| LinePreserving.GroupingIs | internal/editdiff/editdiff.go:299-304 | Grouping fails if and only if a replacement reaches outside the text; otherwise the groups hold all replacements, their lines do not overlap, and each line of a group is touched. |
| LinePreserving.GroupReplacements | internal/editdiff/editdiff.go:297-304 | The grouping loop computes that grouping. |
| LinePreserving.RenderIsSubstitute | internal/editdiff/editdiff.go:306-328 | With the base's own lines for the kept ones, the result is the plain simultaneous substitution of the base. |
| LinePreserving.KeepsUntouched | internal/editdiff/editdiff.go:306-328 | The lines emitted verbatim are exactly those no replacement touches, in order. |
| LinePreserving.UnchangedLinesSurvive | internal/editdiff/editdiff.go:286-328 | One skeleton gives both: over the original's lines it is the result, over the base's lines it is the plain substitution; the errors are exactly different line counts and a replacement outside the base. |
| LinePreserving.SameTextCoincides | internal/editdiff/editdiff.go:286-328 | When original and base are the same text, preserving lines is plain substitution. |
| LinePreserving.ApplyReplacementsPreservingUnchangedLines | internal/editdiff/editdiff.go:286-328 | The program computes the preserved text or the error of the two lemmas above. |
| EditEngine.NormalizeToLFIsLF | internal/editdiff/editdiff.go:145-148 | No carriage return is left, and a second normalization changes nothing. |
| EditEngine.NormalizeToLFMeans | internal/editdiff/editdiff.go:145-148 | A text without carriage returns stays, CR LF and a lone CR become LF, and two pieces are normalized one by one unless the cut splits a CR LF: together this fixes the result for every text. |
| EditEngine.PlaceFits | internal/editdiff/editdiff.go:180-192 | A placed edit lies in the base, carries the edit's new text, covers the old text on the exact path, and is empty only in a blank base. |
| EditEngine.PlaceAllIs | internal/editdiff/editdiff.go:231-243 | Matching succeeds if and only if every edit has a place. |
| EditEngine.MatchEdits | internal/editdiff/editdiff.go:231-243 | The matching loop places the edits in order and stops at the first that cannot be placed. |
| EditEngine.CountIsMost | internal/editdiff/editdiff.go:516-520 | The number of occurrences named by the duplicate error is the largest number of occurrences that do not overlap. |
| EditEngine.PlaceMeans | internal/editdiff/editdiff.go:231-243 | An edit is placed if and only if its old text is found and does not occur at two disjoint places in normal form; then it goes where the old text first occurs, as it is or, failing that, in normal form. |
| EditEngine.BlankEditExample | internal/editdiff/editdiff.go:236-243 | A concrete edit whose old text is empty in normal form and occurs before and after nothing, yet is applied. |
| EditEngine.ApplyEditsToNormalizedContent | internal/editdiff/editdiff.go:207-280 | The program's outcome, each of its errors included, is the reference's. |
| EditEngine.RefusesTheFirstProblem | internal/editdiff/editdiff.go:212-243 | The first empty old text is refused; else the first that is not found or occurs twice, with its error; a result is applied only if every old text is found and no edit could go to two places. |
| EditEngine.OverlapsExactly | internal/editdiff/editdiff.go:246-280 | When every edit has its one place the overlap error comes if and only if two places overlap, and names two that do; what else can be refused is a line count that normal form changes or a result that changes nothing. |
| EditEngine.AppliedMeans | internal/editdiff/editdiff.go:207-280 | In an applied batch each edit goes exactly once to its own place; the new content is the substitution of all places at once or, when some text was found only in normal form, the one that keeps untouched lines. |
| EditEngine.OrderOfEditsDoesNotMatter | internal/editdiff/editdiff.go:207-280 | Every permutation of the edits succeeds with the same content, or every permutation fails. |
| EditEngine.ExactEditsSubstitute | internal/editdiff/editdiff.go:207-280 | On the exact path the result replaces disjoint regions at once, each edit exactly once, all other text unchanged, and an undo restores the content. |
| ToolExecutor.NothingAfterEnd | internal/agent/executor.go:323-394 | After a call's end nothing about it is sent but its result message: no update, no second end. |
| ToolExecutor.MessageFollowsEnd | internal/agent/executor.go:86-220 | A result message follows the end of its call and carries that end's result; updates and ends follow the start. |
| ToolExecutor.MessagesInSourceOrder | internal/agent/executor.go:203-220 | Result messages cover a prefix of the calls in source order. |
| ToolExecutor.InvNext | internal/agent/executor.go:130-220 | Every step of every interleaving keeps the trace legal and the task states consistent, failing listeners and cancellation included. |
| ToolExecutor.RunInv | internal/agent/executor.go:130-220 | The invariant holds in every state of every run. |
| ToolExecutor.NeverStuck | internal/agent/executor.go:130-220 | A run that is not over can always go on without being cancelled. |
| ToolExecutor.ParallelIsLegal | internal/agent/executor.go:130-220 | Whatever the interleaving, the events are legal and a finished run has a result message for every started call, and for every call unless cancelled. |
| ToolExecutor.RefusedUpdateShows | internal/agent/executor.go:323-394 | A refused update is not swallowed: whatever the interleaving, the result message of such a call is an error unless the hook overrode it. |
| ToolExecutor.UpdatesConserved | internal/agent/executor.go:323-394 | No accepted update is lost or sent twice under any interleaving: only passing the gate adds to those sent and to be sent, and none is left once the call has its result. |
| ToolExecutor.SequentialLegal | internal/agent/executor.go:86-120 | The sequential trace is legal and its messages are the calls' own results. |
| ToolExecutor.ExecuteToolCallsSequential | internal/agent/executor.go:86-120 | The events, messages and stop flag of running the calls in order, up to where the context is found cancelled. |
| ToolExecutor.SequentialCounts | internal/agent/executor.go:86-128 | How often each event comes when calls run in order: start, end and message of each call once, with its own result, and all its updates. |
| ToolExecutor.ShouldTerminate | internal/agent/executor.go:225-235 | The batch ends the turn when it has results and every one asks for it. |
| ToolExecutor.ParallelMatchesSequential | internal/agent/executor.go:57-82 | For independent tools, every undisturbed interleaving sends the same result messages as running in order, so it ends the turn in the same cases, and leaves the listener with the same view. |
| AgentLoop.TranscriptIsEnds | internal/agent/runtime.go:731-769 | The transcript rebuilt from any events is the old one and exactly the messages whose end was announced. |
| AgentLoop.PendingMessageQueue.Drain | internal/agent/runtime.go:38-54 | All messages, or one, from the front; none lost or reordered. |
| AgentLoop.Agent.ProcessEvents | internal/agent/runtime.go:731-769 | One event has its effect on messages, streaming message, tools in flight and failure. |
| AgentLoop.StreamingMeans | internal/agent/runtime.go:731-769 | What is shown as streaming is the latest partial message, unless a message or the run has ended since. |
| AgentLoop.FailedMeans | internal/agent/runtime.go:731-769 | After any events the agent has failed if and only if it had before or some turn ended with a reply that broke off. |
| AgentLoop.ForwardedTools | internal/agent/runtime.go:731-769 | After any legal tool batch the tools in flight are exactly the calls still open. |
| AgentLoop.CompleteLeavesNothing | internal/agent/runtime.go:731-769 | A complete batch adds exactly its result messages and leaves no tool in flight. |
| AgentLoop.GrownCount | internal/agent/loop.go:315-426 | A provider stream adds one context message for each start event and at least one; the last is the final message. |
| AgentLoop.Agent.EmitMessages | internal/agent/loop.go:96-104 | Each message is announced from start to end and joins the transcript once. |
| AgentLoop.Agent.StreamAssistantResponse | internal/agent/loop.go:315-426 | The transcript gains exactly the final message; the context gains exactly it if and only if the stream had at most one start event. |
| AgentLoop.StreamShows | internal/agent/loop.go:315-426 | A stream is announced event by event from its first start event on, each with its partial message, and ended with the final one; without a start event it is announced at its end. |
| AgentLoop.Agent.ForwardTools | internal/agent/loop.go:142-285 | The batch's events are announced in order and its result messages join the transcript. |
| AgentLoop.Agent.RunTurn | internal/agent/loop.go:170-268 | One turn: its exact events, the messages added, both histories at its end and after the hook, whether the model goes on, and whether the run is over. |
| AgentLoop.Agent.RunTurns | internal/agent/loop.go:158-268 | The inner loop plays the reference's turns while more are wanted or messages are pending, and tracks both histories at every turn end. |
| AgentLoop.Agent.RunLoop | internal/agent/loop.go:142-285 | The loop plays exactly the reference's turns, announces exactly their events and one end, and leaves the queues as the reference does; the histories at each turn end and after the run are those of the reference, whose agreement TurnEndsAgree decides. |
| AgentLoop.RunFollows | internal/agent/loop.go:142-285 | Which turns a run plays: it begins with the queued steering; a turn that broke off or was stopped is the last; after one with a tool that goes on, or with steering queued, a turn with that steering comes next; otherwise one with follow-ups, if there are any. |
| AgentLoop.ToolsAreAnswered | internal/agent/loop.go:196-215 | Play i is turn i, or the cancelled turn when the turns are used up; a result that does not ask to stop is always followed by another turn, and a turn that broke off or was stopped by none. |
| AgentLoop.TurnLeaves | internal/agent/loop.go:163-250 | A turn leaves both histories as the swapped-in one, or the transcript grown by what was pending, the reply, and the results of its tools in order. |
| AgentLoop.RunIsNested | internal/agent/loop.go:86-285 | The events of a run are well nested: one run, its turns one after the other, each with its messages and tools, every message closed before the next thing begins. |
| AgentLoop.RunReports | internal/agent/loop.go:142-285 | A run reports each turn once, in order, with its reply and its results, and at the very end, once, all messages it added. |
| AgentLoop.Agent.RunAgentLoop | internal/agent/loop.go:86-107 | A run from prompts announces them first; the announced messages are exactly those it returns; with at most one start event per stream transcript and context agree at every turn end and after it; without a swap the transcript grows by exactly the returned messages. |
| AgentLoop.Agent.Prompt | internal/agent/runtime.go:505-516 | While a run is going on nothing changes; otherwise one whole run from the prompts. |
| AgentLoop.Agent.Continue | internal/agent/runtime.go:449-499 | Whether and from what a run goes on: steering before follow-ups after an assistant's message, the transcript itself otherwise; refused cases change nothing. |
| AgentLoop.ContinuationMeans | internal/agent/runtime.go:449-499 | Every outcome of resuming, exactly; what is taken is polled from the front of its queue, steering before follow-ups, and the other queue is left alone. |
| AgentLoop.QueuedMessagesConserved | internal/agent/loop.go:142-285 | Over a whole run no queued message is lost or delivered twice: delivered and still queued together are what was pending, queued and came in. |
| AgentLoop.TurnEndsAgree | internal/agent/loop.go:142-285 | From equal histories, transcript and context agree at every turn end of a run, across compaction swaps, if and only if every stream had at most one start event. |
| AgentLoop.WithoutSwap | internal/agent/loop.go:142-285 | Without a swap the transcript at each turn end is the initial one and all that was added up to there. |
| AgentLoop.RunEndsAgree | internal/agent/loop.go:86-285 | With at most one start event in every stream that may be played, both histories agree at every turn end and at the end of any run. |
| AgentLoop.TwoStartsExample | internal/agent/loop.go:315-426 | A concrete stream with two start events leaves a message in the context that the transcript lacks. |
| Retry.RunShowsOneAttempt | internal/retry/stream.go:53-137 | The run ends within the allowed attempts and shows nothing, or what the last attempt sent before its terminal event; attempts before it show nothing. |
| Retry.AgainMeans | internal/retry/stream.go:140-181 | An attempt is retried if and only if it showed nothing, failed for a passing reason, the delay is allowed and attempts remain. |
| Retry.Flush | internal/retry/stream.go:303-319 | Every buffered event is forwarded in order with the fold of all events so far. |
| Retry.RetryClassified | internal/retry/stream.go:153-181 | Retry or the right terminal event, in the source's order of tests. |
| Retry.ReadAttempt | internal/retry/stream.go:85-136 | Reading one attempt's stream, with its events held back until it is committed, comes to the reference's outcome. |
| Retry.BufferIsBounded | internal/retry/stream.go:85-136 | Wherever an attempt stands, at most 63 events are held back. |
| Retry.Produce | internal/retry/stream.go:53-137 | The trace of calls, forwarded events and the terminal event is that of the reference run. |
| Retry.TraceIsSafe | internal/retry/stream.go:53-137 | Calls are numbered from one up to the limit, none comes after anything is shown, exactly one terminal event comes last, and each partial message is the fold of the events shown. |
| Retry.FinishedMeans | internal/retry/stream.go:85-181 | How the last attempt ends the stream, in every case and both ways: a whole reply and a failure that could be seen go through with their own last event and nothing left out; a hidden one that may pass ends as exhausted, too long to wait for, or cancelled; one that may not is passed on with a description. |
| Retry.RunEnds | internal/retry/stream.go:53-137 | A run is hidden passing failures, each allowed and waited for, and then one attempt that ends it; the calls are counted exactly. |
| Retry.NominalDelay | internal/retry/config.go:137-149 | The delay is min(base * 2^(k-1), cap), computed without leaving the 64-bit range. |
| Compaction.CutPointsAre | internal/compaction/compaction.go:491-512 | The valid cut points are exactly the messages that are no tool result, the branch summaries and the custom messages, in ascending order. |
| Compaction.FindValidCutPoints | internal/compaction/compaction.go:491-512 | The building loop gives that list. |
| Compaction.FindTurnStartIndex | internal/compaction/compaction.go:312-326 | The nearest turn start at or before an entry. |
| Compaction.FindCutPoint | internal/compaction/compaction.go:329-369 | The cut: the first cut point at or after the place where the budget is reached, moved back over entries that are no messages, with the turn it splits. |
| Compaction.CutMeans | internal/compaction/compaction.go:329-369 | The cut, for any entries and budget: the first valid place after which every message is within the budget, else the first valid place, moved back to just after a message or compaction; it splits the turn that starts nearest before it unless it is a user message. |
| Compaction.PrepareCompaction | internal/compaction/compaction.go:372-436 | What is summarized, the split turn's prefix, the first kept entry and the earlier summary, or nothing. |
| Compaction.BoundaryMeans | internal/compaction/compaction.go:376-401 | What is not yet summarized begins at the first entry the latest compaction kept, after that compaction if the entry is gone, at the start without one. |
| Compaction.PreparationMeans | internal/compaction/compaction.go:372-434 | When something is prepared, exactly, for any entries; history and prefix together are all messages between boundary and cut, and the prefix those of the turn the cut splits. |
| Compaction.PreviousSummaryMeans | internal/compaction/compaction.go:376-385 | The summary handed on is that of the latest compaction, or none. |
| Compaction.MessagesToEntries | internal/session/compact.go:95-104 | One entry for each message that is there. |
| Compaction.ToEntriesWraps | internal/session/compact.go:95-104 | The entries hold exactly the present messages, with ascending, non-empty identifiers. |
| Compaction.ConversationConserved | internal/compaction/compaction.go:372-436 | Summarized messages, turn prefix and kept messages together are the conversation, in order. |
| Compaction.CompactionMeans | internal/compaction/compaction.go:329-434 | For any conversation and budget: what is kept begins at the first message, no tool result, after which the rest is under the budget, else at the first that is no tool result; something is compacted if and only if that is not the beginning; the prefix runs from the nearest turn start up to a cut that is no user message. |
| Compaction.CompactedForm | internal/compaction/compaction.go:1085-1138 | The compacted conversation is one user message that begins with the summary and then an end of the original. |
| Compaction.CompactedIsSound | internal/compaction/compaction.go:1085-1138 | It starts with a user message, is never longer, brings no two user messages together that were apart, and keeps calls paired with results. |
| Compaction.BudgetKept | internal/compaction/compaction.go:329-369 | The messages after the first kept one fit the budget if and only if the budget was never reached or some cut point lies at or after the place where it was. |
| Compaction.OverBudgetExample | internal/compaction/compaction.go:329-369 | A concrete conversation without a cut point at or after the budget place, whose kept messages exceed the budget. |
| Compaction.MaybeCompact | internal/session/compact.go:69-89 | Compacts if and only if it is enabled, the estimate is over, a cut is possible and a summary was made; the result is the applied compaction, well-paired if the input was. |
| Transform.AnswerEveryCall | internal/engine/transform/transform.go:133-223 | The second pass of the program computes the reference's messages. |
| Transform.KeepsTheUnbroken | internal/engine/transform/transform.go:133-223 | Everything but errored and aborted replies comes out, in order and unchanged. |
| Transform.RepliesOfPass | internal/engine/transform/transform.go:133-223 | Exactly how many results a call gets: its prompt ones, the late ones, and fills only where there was no prompt one. |
| Transform.CallsAreAnswered | internal/engine/transform/transform.go:133-223 | Every call that comes out is answered before the next user or assistant message. |
| Transform.OutputMeans | internal/engine/transform/transform.go:134-224 | Every message of the output was in the input, or is an error result for a call of the reply it follows, with its identifier and name. |
| Transform.ReplyIsFollowedBy | internal/engine/transform/transform.go:134-224 | After a kept reply come all messages up to the next user or assistant message, unchanged, and then, in call order, an error result for each call that none of them answers. |
| Transform.ExactlyOneAnswer | internal/engine/transform/transform.go:133-223 | A call whose identifier is used once has exactly one answer if and only if it had at most one prompt result and none behind a dropped reply. |
| Transform.LateResultExample | internal/engine/transform/transform.go:133-223 | A concrete transcript in which a dropped reply makes a call answered twice. |
| Transform.OutputIsRepaired | internal/engine/transform/transform.go:133-223 | No broken reply and no unanswered call is left. |
| Transform.SecondPassIsIdempotent | internal/engine/transform/transform.go:133-223 | Repairing a repaired transcript changes nothing. |
| Transform.NoImagesLeft | internal/engine/transform/transform.go:23-41 | No image is left where the model takes none. |
| Transform.ImagesHideNoCalls | internal/engine/transform/transform.go:23-41 | Replacing images loses no tool call. |
| Transform.ImagesMean | internal/engine/transform/transform.go:23-41 | Downgraded content is exactly its blocks in order, with one placeholder for each run of images that does not follow one. |
| Transform.RewritingKeepsCalls | internal/engine/transform/transform.go:227-280 | A rewritten reply keeps its calls in order, renamed. |
| Transform.RewritingStripsThinking | internal/engine/transform/transform.go:227-280 | A reply of another model keeps no thinking block and no thought signature. |
| Transform.RewritingMeans | internal/engine/transform/transform.go:228-279 | A rewritten reply is exactly its surviving blocks in order: all but blank unsigned thinking for the same model; for another model text and images as they are, thinking as text, calls renamed with name and arguments kept. |
| Transform.MessagesMean | internal/engine/transform/transform.go:44-132 | What becomes of each message before the repair: everything is kept but what images, thinking and identifiers lose. |
| Transform.TransformAssistantMessage | internal/engine/transform/transform.go:227-280 | The loop over one reply gives the rewritten reply and records exactly the renamings that change an identifier. |
| Transform.RewrittenIds | internal/engine/transform/transform.go:89-132 | In the rewritten transcript each result bears the identifier known for it then, and each reply the renamed calls. |
| Transform.RenamingKeepsPairing | internal/engine/transform/transform.go:89-132 | With identifiers distinct before and after, renaming changes no pairing if and only if no orphaned result bears a new identifier. |
| Transform.OrphanExample | internal/engine/transform/transform.go:89-132 | A concrete transcript in which a result without a call comes to answer a renamed one. |
| Transform.TransformMessages | internal/engine/transform/transform.go:89-224 | The program is the second pass after the first after the image downgrade. |
| EventStream.HistoryGrows | internal/engine/stream/stream.go:58-101 | The result is fixed by the first finishing operation, and only operations up to it are accepted. |
| EventStream.Stream.FinishLocked | internal/engine/stream/stream.go:87-101 | The first call closes and fixes the result; later ones change nothing. |
| EventStream.Stream.Push | internal/engine/stream/stream.go:58-70 | The push's effect on queue, closed flag and result. |
| EventStream.Stream.End | internal/engine/stream/stream.go:73-76 | Ending without a result, unless already closed. |
| EventStream.Stream.EndWith | internal/engine/stream/stream.go:83-85 | Ending with a result, unless already closed. |
| EventStream.Stream.Next | internal/engine/stream/stream.go:105-125 | The dispatcher takes the oldest queued event, if there is one. |
| EventStream.InvNext | internal/engine/stream/stream.go:58-125 | Every step keeps: delivered, buffered, in flight and queued events together are exactly the accepted ones, in order. |
| EventStream.RunInv | internal/engine/stream/stream.go:58-125 | The invariant holds in every state of every schedule. |
| EventStream.DeliveryIsFaithful | internal/engine/stream/stream.go:58-156 | What was delivered is a prefix of what was accepted, the channel closes only after all is handed over, the result is the first finish's, and the dispatcher never waits on work. |
| EventStream.StoppedForGood | internal/engine/stream/stream.go:105-125 | Once the channel is closed it stays closed and nothing more is accepted. |
| EventStream.Progress | internal/engine/stream/stream.go:105-125 | A finished stream can always go on until everything is delivered and the channel is closed. |
| EventStream.WorkShrinks | internal/engine/stream/stream.go:105-125 | Each step of dispatcher and consumer brings that nearer. |
| AssistantBuilder.Builder.Fold | internal/engine/types/stream.go:61-104 | The effect of each event; closing events are authoritative. |
| OpenAIFold.RoutedNext | internal/provider/openai/events.go:250-311 | Pieces that all have an index and whose identifiers keep to one index go to the calls of their indices. |
| OpenAIFold.Fold.FoldTextDelta | internal/provider/openai/events.go:164-181 | Text joins the one text block or opens it, with exactly these events, and the builder follows. |
| OpenAIFold.Fold.FoldThinkingDelta | internal/provider/openai/events.go:207-224 | The same for reasoning. |
| OpenAIFold.Fold.FoldToolCallDelta | internal/provider/openai/events.go:250-311 | A piece goes to the call with its index, else with its identifier, else opens one; the message, both maps, the buffers and the events are exactly determined. |
| OpenAIFold.Fold.FoldChoice | internal/provider/openai/events.go:93-160 | Content, reasoning (standard field first) and tool pieces of one choice, in that order, also among the events. |
| OpenAIFold.Fold.Finalize | internal/provider/openai/events.go:315-334 | One closing event for each block, in order, and the builder then holds exactly the message; known calls have their final arguments, others are unchanged. |
| OpenAIFold.Fold.BuffersAreConcatenations | internal/provider/openai/events.go:250-311 | Under any interleaving, every call's buffer, indexed or not, is the concatenation of the pieces that went to it; and at every point each index has exactly the text sent for it if and only if no piece with text went to a call of another stream index. |
| OpenAIFold.PerIndexExactly | internal/provider/openai/events.go:250-311 | The law behind it, for any pieces and any routing: every index has its own text at every point if and only if every piece with text went to a call of its stream index. |
| OpenAIFold.SharedIdExample | internal/provider/openai/events.go:262-266 | A concrete pair of pieces: an identifier seen again under another index draws its text to the first call. |
| OpenAIFold.Fold.ConsistentBuffers | internal/provider/openai/events.go:250-311 | When every piece has an index and identifiers keep to one index, each indexed call's buffer is the concatenation of its index's fragments. |
| OpenAIFold.Fold.TextIsConcatenation | internal/provider/openai/events.go:164-224 | Text and reasoning are the concatenation of what was received, and the builder agrees throughout the stream. |
| OpenAIFold.Fold.CallsMean | internal/provider/openai/events.go:276-311 | Until the closing events each call has the first identifier and the first name among the pieces that went to it, and what their text, put together, parses to. |
| AnthropicFold.Fold.BlockStart | internal/provider/anthropic/events.go:184-214 | A known block opens at the end of the message with its event; an unknown one changes nothing. |
| AnthropicFold.Fold.BlockDelta | internal/provider/anthropic/events.go:220-251 | A delta changes the first block with its index and no other, with exactly this event; arguments are parsed from the joined fragments, and a fragment reopens its call and nothing else. |
| AnthropicFold.Fold.BlockStop | internal/provider/anthropic/events.go:256-272 | Closing parses the joined fragments for a call and sends the authoritative event. |
| AnthropicFold.Fold.ClosedMeansSame | internal/provider/anthropic/events.go:184-286 | Once every call and redacted block is closed the builder holds exactly the message; text and plain thinking agree all along. |
| AnthropicFold.Fold.FoldEvent | internal/provider/anthropic/events.go:153-180 | One raw event goes to its fold, and the blocks, their contents and the closed ones are what the events so far say. |
| AnthropicFold.Fold.FoldStream | internal/provider/anthropic/events.go:153-286 | For every stream of raw events in which no index starts two blocks, the message is block by block what was sent: text, thought, signature and parsed arguments; if moreover each call is stopped after its last fragment and each redacted block after its start, folding the events sent gives exactly that message. |
| GoogleFold.Fold.FoldText | internal/provider/google/events.go:149-194 | A delta joins the current block if that is of its kind, else opens a new one, with exactly these events. |
| GoogleFold.Fold.FoldFuncCall | internal/provider/google/events.go:198-238 | A call is a block of its own with its three events; it gets a made-up identifier if it has none or one in use. |
| GoogleFold.Fold.FoldChunk | internal/provider/google/events.go:99-135 | The parts of a chunk in order, empty text skipped; the builder holds the same message. |
| GoogleFold.PartsAreSaid | internal/provider/google/events.go:99-238 | The message says exactly what the parts say, letter by letter and call by call, in order, and text that goes on in the same voice is one block. |
| GoogleFold.PartKeepsBlocks | internal/provider/google/events.go:149-238 | A block that is there only gains text; a new one has the identity and signature of its part, with a made-up identifier only if its own is missing or in use. |
| GoogleFold.Fold.Finalize | internal/provider/google/events.go:242-256 | Text and thinking blocks are closed in order, and the builder's message stays equal. |
| GoogleFold.DistinctExactly | internal/provider/google/events.go:198-238 | Over any sequence of parts the call identifiers stay distinct if and only if no call that needed a made-up identifier got one in use. |
| GoogleFold.MadeUpIdExample | internal/provider/google/events.go:198-238 | A concrete pair of calls that end up with the same identifier. |
| ServerSentEvents.LinesInTwo | internal/transport/sseparse/sse.go:159-194 | The lines of a text in two pieces are those of the first and then those of what it left over with the second, unless the cut splits a CR LF. |
| ServerSentEvents.ReadAllIs | internal/transport/sseparse/sse.go:110-172 | However the bytes are split, the reader decodes the lines of its segments, in order. |
| ServerSentEvents.SplitsDoNotMatter | internal/transport/sseparse/sse.go:110-155 | Two splittings that never cut a CR LF give the same events, those of the whole text and its end. |
| ServerSentEvents.SentIsReceived | internal/transport/sseparse/sse.go:33-155 | Round trip: events written with any of the three line ends come back as sent, type and data alike, however the bytes are split outside a CR LF. |
| ServerSentEvents.CutExample | internal/transport/sseparse/sse.go:159-194 | A concrete stream whose events change when a read ends between CR and LF. |
| ServerSentEvents.CutMatters | internal/transport/sseparse/sse.go:110-194 | A read that ends between CR and LF leaves the events as they are if and only if nothing is pending there, or a blank line or the end of input comes next. |
| ServerSentEvents.EventsOnlyGrow | internal/transport/sseparse/sse.go:110-155 | The events after each read are a prefix of those in the end. |
| ServerSentEvents.DecoderState.FlushSseEvent | internal/transport/sseparse/sse.go:33-47 | The pending event, if any, is dispatched and the state cleared. |
| ServerSentEvents.DecoderState.DecodeSseLine | internal/transport/sseparse/sse.go:51-79 | One line's effect: blank, comment, field (section 9.2.6 of the WHATWG HTML Living Standard). |
| ServerSentEvents.OtherLines | internal/transport/sseparse/sse.go:51-79 | Comments and unknown fields change no event; a value loses one leading space and no more; a field without a colon is empty. |
| ServerSentEvents.DecoderState.DrainCompleteLines | internal/transport/sseparse/sse.go:159-185 | All complete lines are decoded and the incomplete one is left. |
| ServerSentEvents.IterateSSE | internal/transport/sseparse/sse.go:110-155 | The read loop and the end of input give the reader's events. |
| JsonRepair.RepairJson | internal/engine/jsonrepair/jsonrepair.go:18-78 | The index loop writes the repaired text. |
| JsonRepair.RepairIsFaithful | internal/engine/jsonrepair/jsonrepair.go:18-78 | The repaired text is clean, is its own repair, and reads symbol for symbol like the input, so strings begin and end with the same symbols. |
| JsonRepair.CleanStays | internal/engine/jsonrepair/jsonrepair.go:18-78 | Repair changes a text if and only if it is not clean. |
| JsonRepair.RepairIsIdempotent | internal/engine/jsonrepair/jsonrepair.go:18-78 | The three laws for whole texts: always clean, same reading, a second repair and the repair of a clean text change nothing. |
| JsonRepair.RawStringSurvives | internal/engine/jsonrepair/jsonrepair.go:18-78 | Plain text put between quotes as it is, control bytes included, is read back character by character once repaired. |
| Journal.Load | internal/session/journal/resume.go:50-116 | The scan over the lines: header, records, a malformed line tolerated only at the end. |
| Journal.LoadFinds | internal/session/journal/resume.go:50-116 | Good records with an unfinished end load as exactly those records, and a last one that lacks only its newline counts. |
| Journal.LoadFailsExactly | internal/session/journal/resume.go:50-116 | Loading fails if and only if the header is missing or a line in front of the last is malformed, and the error names the first such line. |
| Journal.DiagnosticsCount | internal/session/journal/resume.go:80-91 | There is one diagnostic for each record of an unknown kind. |
| Journal.TrimMalformedFinalLine | internal/session/journal/resume.go:151-188 | A final line that is no record is cut off, nothing else. |
| Journal.TrimRemovesTear | internal/session/journal/resume.go:151-188 | Trimming a torn journal leaves exactly the good records. |
| Journal.Store.constructor | internal/session/journal/store.go:39-86 | A new journal holds its header line and has no last record. |
| Journal.Store.Append | internal/session/journal/store.go:113-149 | A full write appends the record with its parent and moves the parent on; a short write leaves the torn bytes and the old parent. |
| Journal.OpenForResume | internal/session/journal/resume.go:119-147 | Loading and reopening succeed together, after trimming. |
| Journal.CrashHolds | internal/session/journal/resume.go:119-188 | After a crash anywhere but between a record and its newline, resuming holds exactly the records written in full. |
| Journal.RunHolds | internal/session/journal/resume.go:50-188 | After any appends and crashes the file holds exactly those records, linked. |
| Journal.JournalIsFaithful | internal/session/journal/resume.go:50-188 | Loading is the replay of exactly the records written in full, resuming goes on from there, and every record's parent is its predecessor across all resumes. |
| Journal.LoadsWhatWasSaved | internal/session/journal/resume.go:50-116 | After appends and crashes that saved no compaction the loaded messages are exactly the saved ones, in order, with their identifiers; model and role are those of the last saved change. |
| Journal.LoadsTheCompacted | internal/session/journal/resume.go:92-116 | After a saved compaction: of what was loaded before it, the messages from the first one with the kept identifier, or all; the summary merged into a first user message or put in front; then exactly the messages saved since. |
| Journal.TornExactly | internal/session/journal/resume.go:151-188 | After a crash, a resume and one more append the journal is right if and only if the cut was not exactly between the record and its newline. |
| Journal.ShortWritesLoad | internal/session/journal/store.go:113-149 | Appends on one open store, any of them short: the journal still loads if and only if nothing was written after the first record that followed an unfinished one on its line. |

## Left out

- Truncate.Tail: a negative line limit is excluded, because the program panics there (`min(len(lines), maxLines)` is a negative capacity, internal/truncate/truncate.go:121).
- ToolOutput.OutputAccumulator.Snapshot: it requires a positive line limit for the same reason; the other methods do not.
- FileMutations.FileMutationQueue.Acquire: path resolution is not part of this model; keys are given.
- EditEngine.ApplyEditsToNormalizedContent: the Unicode tables behind the tolerant match are a parameter of which only idempotence is assumed, and error wording is not modelled.
- ToolExecutor.ExecuteToolCallsSequential: listener failures are modelled for the concurrent executor only.
- ToolExecutor.ParallelMatchesSequential: it is stated for tools that do not depend on each other and runs that nothing disturbs.
- AgentLoop.Agent.RunLoop: failing listeners, tool arguments and the change of model between turns are not modelled.
- AgentLoop.Agent.Prompt: the synthetic failure events after a panic or error are not modelled.
- AgentLoop.Agent.Continue: the same holds here.
- AgentLoop.Agent.ProcessEvents: listeners and their errors are not modelled.
- Retry.Produce: error classification, jitter and the sleep itself are part of what an attempt is.
- Compaction.PrepareCompaction: file operations gathered for the summary are not modelled, and token counts are a parameter.
- Transform.TransformMessages: nil message pointers, and Unicode white space beyond the ASCII blanks, are not modelled.
- EventStream.InvNext: there is one producer; two producers that finish at the same moment are not modelled.
- AssistantBuilder.Builder.Fold: stop reasons, error fields, usage and cost are not modelled.
- OpenAIFold.Fold.FoldChoice: finish reasons, response metadata and usage are not modelled.
- AnthropicFold.Fold.BlockStart: tool names restored for OAuth sessions are a parameter, and initial arguments are given as text.
- GoogleFold.Fold.FoldChunk: the candidates' parts are given as one sequence, and finish reasons are not modelled.
- ServerSentEvents.IterateSSE: read errors, a failing callback and cancellation are not modelled.
- Journal.Store.Append: the file system's answer is a number of bytes written; permissions, file names, timestamps and syncing are not modelled.
- Journal.TornExactly: it assumes that two records on one line do not decode, as no two JSON values in a row do.
- Journal.ShortWritesLoad: it assumes of the codec that the beginning of a record ruins a record written right after it.
- ToolExecutor.RefusedUpdateShows: what the after-call hook makes of an outcome is given as a whole, not field by field.
- `truncate.Head` and `truncate.Line`: easier relatives of the tail.
- `GenerateDiffString` and `GenerateUnifiedPatch`: presentation of the diff.
- The final JSON parse, JSON Schema validation, SHA-256 anchors, and the summarizer's text.
- HTTP clients, request building, watchdog timers, permissions, configuration, prompts and the command line.
- Finding the latest journal of a directory.
