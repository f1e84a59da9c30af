# Verified models of codeg's transcript store and its neighbours

A Dafny project that models the parts of codeg where correctness rests on an argument rather than
on a single function body, and proves those arguments. `dafny verify dfyconfig.toml` checks all
of it.

| Component | Source | Files |
|---|---|---|
| The transcript record, its file, and the reader that turns entries into turns | `src-tauri/src/acp_transcript.rs`, `src-tauri/src/parsers/acp_native.rs` | `Records.dfy`, `Projection.dfy`, `ProjectionLaws.dfy`, `ToolCards.dfy`, `CallHistory.dfy`, `StreamedTurns.dfy` |
| The compactor that merges streamed chunks | `src-tauri/src/acp_transcript.rs` | `Merging.dfy`, `Compaction.dfy` |
| The session writer, over every outcome of every disk operation | `src-tauri/src/acp_transcript.rs` | `WriterModel.dfy`, `WriterTheorems.dfy`, `WriterDeadlines.dfy`, `WriterInStep.dfy`, `WriterHeaders.dfy`, `WriterAcks.dfy`, `SessionWriter.dfy` |
| Callers, queue, writer thread and replay gate, interleaved | `src-tauri/src/acp_transcript.rs` | `ReplayGate.dfy`, `GateLimits.dfy` |
| The readers over bytes, and the walks over linked transcripts | `src-tauri/src/acp_transcript.rs` | `Utf8.dfy`, `Whitespace.dfy`, `LineReaders.dfy`, `Chains.dfy`, `Supersession.dfy` |
| The server's credential file | `src-tauri/src/keyring_store.rs` | `TokenStore.dfy`, `Decimals.dfy` |
| The process supervisor | `src-tauri/src/supervise.rs` | `Supervisor.dfy`, `SupervisorOutcomes.dfy` |
| The pet's aggregate state and its subscriber loop | `src-tauri/src/pet_state_mapper.rs` | `Pet.dfy` |
| The browser agent's refs | `browser-agent/src/index.ts` | `BrowserRefs.dfy` |
| The console forwarder | `src/browser-injected/helper.js` | `Console.dfy` |
| Shell quoting | `src-tauri/src/git_credential.rs` | `ShellQuote.dfy` |

## How the pieces fit

What the source updates in place is a class here (`SessionWriters`, `TokenStores`, `Pets`,
`BrowserAgents`, `ConsoleForwarders`), whose methods are proved to end in the state a function on
values gives. The theorems are about those functions, over arbitrary sequences of steps, and say what comes
out in terms of what went in: which records a written line stands for (`Merging`), which turns and
blocks a conversation reads as (`ProjectionLaws`, `CallHistory`, `StreamedTurns`), when a flush is due
(`WriterDeadlines`), what follows a worker's death (`SupervisorOutcomes`). What the
source does not control (how a disk operation or a file lookup goes, interleaving, clocks, what a
page does) is a parameter of a step, so a theorem over all runs covers it; the exceptions are
listed at the end. Protocols between threads or processes (`ReplayGate`, `Supervisors`) are state
machines whose steps are the source's atomic actions.

The transcript file is a sequence of cells: each record prints as cells that name it and a
newline, so that printing is injective, a strict prefix of a line does not parse, and two lines
run together do not parse either. Payloads are decoded session updates. `LineReaders` works on
real bytes, and holds for any pair of line decoders.

## Where the obvious claim is not the true one

The code was followed wherever it and its comments part ways; each case has a lemma that gives the
input, and a theorem with the condition under which the claim does hold.

- **"No interleaving yields a false no"** (`acp_transcript.rs:1126-1128`) depends on the file and on
  the read. Nothing closes the torn tail a crash can leave, so the next record is glued to it; and a
  scan that cannot open the file reports no entries. `GateLimits` is exact: over a file that ends on a
  line boundary, or with an entry on a line it closed, no run gives a false no, and over any other
  file one does (`GateIsSoundIff`, `HiddenPromptIsDenied`); once writers can be evicted only the
  entry on a closed line will do (`EvictedGateIsSoundIff`); a read that cannot open the file can deny
  a landed prompt over any file (`UnreadFileIsDenied`).
- **Merging is invisible** while the writer's "the turn is live" does not run ahead of the file.
  Only a write that was abandoned after failing to roll back can make it do so, and
  `LaggingWriterLosesMeaning` is a run in which it does. `LiveIsSafeIff` is exact about states;
  `KeptTurnsPreserveMeaning` covers every run whose abandoned batches did not land an end of turn.
- **An ack means stored**, for entries (`AckedEntryIsStored`). A header can be acked with none in the
  file, in exactly the states of `AckedAheadIff`: while the first is still buffered
  (`RepeatedHeaderAckedEarly`), or for good, when the file holds something else
  (`LateHeaderIsNeverStored`).
- **One header per file** holds as long as the lookup of the file's size works: one that fails reads
  as an empty file (`SecondHeaderIff`, `BlindHeaderIsStoredTwice`).
- **The credential store is never taken for an empty one** as long as the lookup of its backup works
  while the live file is missing: `exists()` answers no on an error (`SuccessIsTrueIff`,
  `BlindWriteLosesStore`).
- **Hiding superseded transcripts** loses a cycle of links exactly when nothing outside continues it
  (`HidingLosesNothingIff`), and the oldest part of a conversation longer than the depth cap
  (`OldestIsCutOff`).
- **Poisoning** belongs to a writer instance: an idle writer is evicted and its successor starts
  clean on whatever tail was left.
- **A failure is shown for the full window after the latest error** (`pet_state_mapper.rs:290-293`)
  exactly when no clear from an earlier failure is queued or still to be sent (`WindowIsWhole`,
  `WindowIsCut`, `StaleClearHappens`). That Failed never sticks holds always.
- **A child's signals commute with its announcement** except for a disconnect, its own completion,
  and a request id that another connection has pending (`SignalCommutesIff`).
- **A rolled back upgrade** needs any exit other than a restart within the window, a clean exit
  included; on Windows a version that cannot even be spawned is not rolled back. A worker that
  reverted the upgrade itself has also removed the marker (`RollbackNeedsTrial`).
- **"The page itself has not changed"** (`browser-agent/src/index.ts:441-445`) is only known when
  the ref was quoted with the current token; with the previous one only the address is compared
  (`BlameOutlivesNavigation`).
- **A history entry id is not new after back or forward**, as `browser-agent/src/index.ts:171-177`
  says it is: the entry returned to keeps its id. Ref safety does not need it, because a traversal
  fires `popstate`; the model lets ids come back.
- **A line wholly kept keeps its refs** unless the cut is made at an empty first line
  (`ShownIffWhollyKept`).

## Model

| member | source | states |
|---|---|---|
| Projection.ProjectTurns | src-tauri/src/parsers/acp_native.rs:430-572 | one pass over the entries yields exactly the turns of the fold that the theorems below are about |
| Projection.ReadAppend | src-tauri/src/parsers/acp_native.rs:430-572 | reading is compositional: the state after a prefix is all the rest of the transcript can depend on |
| Projection.PromptedTurnReads | src-tauri/src/parsers/acp_native.rs:430-572 | whatever came before, a prompt, a reply streamed in any chunks and its turn end add the user turn at the prompt time and one assistant turn holding the whole text, from the prompt to the turn end, with what the turn end reports |
| Projection.ReplyIsOneBlock | src-tauri/src/parsers/acp_native.rs:344-372 | however a reply was cut into chunks it reads as one block; the turn starts at the prompt, or else at the first chunk, and ends at the last chunk |
| ProjectionLaws.EchoIsDropped | src-tauri/src/parsers/acp_native.rs:711-717 | in any conversation, user chunks between a recorded prompt and the first agent output change nothing of what is read |
| ProjectionLaws.EchoedTurnReads | src-tauri/src/parsers/acp_native.rs:711-717 | from any reader state, prompt, echo, streamed reply and turn end add the prompt turn with its own blocks once, and the reply turn |
| ProjectionLaws.UserTextShows | src-tauri/src/parsers/acp_native.rs:718-771 | with no prompt just recorded, a user message shows: its text chunks as one block on the user turn before it or on a turn of its own, the assistant turn before it over, and the answer timed from its last chunk |
| ProjectionLaws.AttachmentShows | src-tauri/src/parsers/acp_native.rs:727-771 | an attachment is a block of its own: the prose before it is closed and trimmed, and later text does not run on from it |
| ProjectionLaws.ReplayedTurnReads | src-tauri/src/parsers/acp_native.rs:710-791 | a replayed exchange with no prompt or turn end recorded reads as one trimmed user block and one reply turn from the last user chunk to the last reply chunk |
| ProjectionLaws.UnansweredMessageReads | src-tauri/src/parsers/acp_native.rs:567-571 | the same message with no reply yet reads as its one trimmed block |
| ProjectionLaws.SteeredTurnReads | src-tauri/src/parsers/acp_native.rs:465-543 | a message delivered into a turn splits the reply in two with times of their own; usage and model of the turn end go on the second part, its duration on neither |
| ProjectionLaws.SteerWithoutAnswer | src-tauri/src/parsers/acp_native.rs:507-543 | with nothing after that message, usage and model go on the part before it, and on no reply to an earlier prompt |
| ProjectionLaws.EndAloneTouchesNoTurn | src-tauri/src/parsers/acp_native.rs:507-543 | with no open part and no such message a turn end changes no turn |
| ProjectionLaws.NothingCarriesOver | src-tauri/src/parsers/acp_native.rs:537-542 | after a turn end, two readers with the same turns read whatever follows alike: nothing else of the turn survives it |
| ProjectionLaws.UsageOnlyEndsProse | src-tauri/src/parsers/acp_native.rs:885-892 | a usage report changes nothing but that it ends the run of user prose before it |
| ToolCards.OneCardPerCall | src-tauri/src/parsers/acp_native.rs:799-881 | in every projected conversation no turn holds two use cards, or two result cards, for one call, however late updates come |
| CallHistory.CallShowsLatest | src-tauri/src/parsers/acp_native.rs:947-1049 | over any run of agent work the turn shows a noted call once, with the latest title that is not empty, the latest input, output, images and metadata, failed as the last notification with a result said; other work in between leaves it alone |
| CallHistory.HeldCallShowsLatest | src-tauri/src/parsers/acp_native.rs:835-840 | a call the open turn holds stays with it, whatever closed turns have one of that id |
| CallHistory.PromptedCallShowsHere | src-tauri/src/parsers/acp_native.rs:833-838 | inside a prompted turn nothing reaches back past the prompt: a call noted there shows in that turn |
| CallHistory.LateUpdateGoesBack | src-tauri/src/parsers/acp_native.rs:816-862 | an update after its turn was closed, between turns or across a delivered message, completes the card of the latest turn that drew one and changes nothing else, but that open user prose is closed |
| CallHistory.PlanShowsLatest | src-tauri/src/parsers/acp_native.rs:1051-1085 | however often the plan is revised the turn shows one plan card, with the last plan |
| StreamedTurns.NothingStreamedIsLost | src-tauri/src/parsers/acp_native.rs:773-881 | over any run of agent work the open turn gains exactly the message text, thoughts and pictures of its chunks, each in order; cards keep their places, and prose that anything followed is unchanged |
| StreamedTurns.TurnsAreNumbered | src-tauri/src/parsers/acp_native.rs:606-630 | projected turns are numbered in order with none skipped, and none is empty |
| Compaction.CompactBatch | src-tauri/src/acp_transcript.rs:668-720 | the merging loop: the batch is cut exactly between neighbours that are not, inside a live turn, text chunks of one kind and one `_meta`; a piece of one record is written as it is, a longer one as a chunk of that kind and `_meta` with its texts in order and the last time; the flag says whether a prompt came after the last turn end |
| Compaction.CompactIsMerging | src-tauri/src/acp_transcript.rs:668-720 | the same cuts, pieces and flag, said of every batch in its own fields |
| Merging.StandsForMore | src-tauri/src/acp_transcript.rs:733-747 | one more chunk folded into the line of a piece gives the line of the longer piece |
| Compaction.MergingPreservesMeaning | src-tauri/src/acp_transcript.rs:640-720 | for every record sequence and every division of it into flush windows, the file of merged batches projects to the same turns, blocks, start and end times as the records written verbatim |
| Compaction.CompactionIsInvisible | src-tauri/src/acp_transcript.rs:640-720 | from any reader state that is in a turn whenever the writer believes so, a compacted batch leaves the reader exactly where the verbatim batch does, and the writer's belief stays no ahead of the reader |
| Compaction.MergeIsInvisibleIff | src-tauri/src/acp_transcript.rs:646-667 | replacing two chunks by their merged record is invisible if and only if a turn is already open or the two carry the same time |
| Compaction.WindowsHaveOneNormalForm | src-tauri/src/acp_transcript.rs:668-720 | compacting what any flush schedule wrote equals compacting the whole run at once, with the same final live flag |
| Compaction.RecompactPrefix | src-tauri/src/acp_transcript.rs:668-720 | re-compacting a written batch together with later records equals compacting all of them; compaction is idempotent |
| Compaction.MergesFully | src-tauri/src/acp_transcript.rs:668-720 | no two neighbouring records of a compacted batch could still have been merged inside a live turn |
| Compaction.TakeAllShrinks | src-tauri/src/acp_transcript.rs:668-720 | compaction never adds records |
| Compaction.CutReadsAsPrefix | src-tauri/src/acp_transcript.rs:668-720 | the first lines of a compacted batch read as some first records of the batch: a cut loses an end, never a middle |
| Compaction.TakeFolded | src-tauri/src/acp_transcript.rs:733-747 | folding a chunk into the open run first or later is the same: which fragments a run was merged from cannot be told |
| Compaction.PushTextTwice | src-tauri/src/parsers/acp_native.rs:344-372 | appending two same-kind chunks builds the same block as appending their concatenation |
| Compaction.StepInTurn | src-tauri/src/parsers/acp_native.rs:430-572 | a prompt puts the reader in a turn, a turn end takes it out, and no other entry takes it out |
| TranscriptFile.ParsePrint | src-tauri/src/acp_transcript.rs:1021-1044 | parsing what was printed gives back the records, for every record sequence |
| TranscriptFile.ParseTorn | src-tauri/src/acp_transcript.rs:502-556 | a batch cut after any number of characters parses to exactly the lines it finished, with or without the newline that restores the boundary |
| TranscriptFile.ParseAppend | src-tauri/src/acp_transcript.rs:1021-1044 | parsing distributes over appending to a file that ends on a line boundary |
| WriterTheorems.EveryRecordOnce | src-tauri/src/acp_transcript.rs:429-583 | after any run under any I/O outcomes the records offered are, as a multiset, the accepted and the turned away; the accepted ones are in order those of the landed and abandoned batches followed by the pending; the answers given are those of the events in order; a deadline is set exactly when something is pending |
| WriterTheorems.FileHoldsWhatLanded | src-tauri/src/acp_transcript.rs:484-556 | what parses back after any run is the old contents, then each landed batch as compacted and the whole lines of each abandoned one, in accept order and nothing else; the file ends on a boundary unless poisoned |
| WriterTheorems.RunPreservesMeaning | src-tauri/src/acp_transcript.rs:429-583 | with no abandoned write, the conversation read from the file is that of the landed records verbatim, whatever the schedule, deferrals and rollbacks |
| WriterTheorems.LivesPreserveMeaning | src-tauri/src/acp_transcript.rs:391-421 | the same across any number of writer instances over one file, each starting afresh after eviction or restart, mid-turn included |
| WriterTheorems.InStepRunPreservesMeaning | src-tauri/src/acp_transcript.rs:529-553 | with abandoned writes the same holds, each counting for the whole lines it left, as long as no abandonment leaves the writer believing in a turn the reader is not in |
| WriterInStep.KeptTurnsPreserveMeaning | src-tauri/src/acp_transcript.rs:529-553 | with abandoned writes, if what landed of each one written in a live turn does not end that turn, the file projects as the landed records verbatim and the whole lines of the abandoned ones |
| WriterInStep.LandedPartKeepsStep | src-tauri/src/acp_transcript.rs:529-553 | landed lines that do not end the turn leave the reader in it |
| WriterInStep.LaggingWriterLosesMeaning | src-tauri/src/acp_transcript.rs:529-553 | a run (a turn end torn after its last character, its newline landing) after which the file projects to other turns than its records written verbatim |
| WriterInStep.AbandonedReadsAsPrefix | src-tauri/src/acp_transcript.rs:529-553 | what an abandoned batch leaves reads as the first so many of its records |
| WriterTheorems.LiveIsSafeIff | src-tauri/src/acp_transcript.rs:373-378 | every later batch of a writer is faithful if and only if it believes in a live turn only when the reader is in one |
| WriterTheorems.RetryIsIdempotent | src-tauri/src/acp_transcript.rs:484-496 | any number of failed opens and rolled-back writes leaves file, buffer and answers unchanged, and the flush that lands ends as the first would have |
| WriterDeadlines.RefusedFlushRebases | src-tauri/src/acp_transcript.rs:560-565 | a flush leaves its batch pending exactly when the disk refused it, unchanged and due a whole window after that attempt, one more failure counted |
| WriterDeadlines.RefusedDiskIsLeftAlone | src-tauri/src/acp_transcript.rs:560-565 | no tick within a window of a refused flush does anything |
| WriterDeadlines.DeadlineCountsFrom | src-tauri/src/acp_transcript.rs:440-472 | on every run, what is pending is due one window after the last step that took a first record into an empty buffer or had its flush refused |
| WriterDeadlines.OldestWaitsOneWindow | src-tauri/src/acp_transcript.rs:440-472 | while the disk refuses nothing, that step is the accept of the oldest pending record |
| WriterDeadlines.DueTickLands | src-tauri/src/acp_transcript.rs:822-834 | from the deadline on, a flush the disk takes empties the buffer onto the file and tells every caller yes |
| WriterDeadlines.StreamedTextWaits | src-tauri/src/acp_transcript.rs:443-452 | chunks offered inside a live turn leave file and callers alone and the deadline where the first of them put it |
| WriterHeaders.AtMostOneHeader | src-tauri/src/acp_transcript.rs:423-467 | over any run the file gains at most one header line if it was empty, none otherwise, and one more for each header let on while the lookup of a non-empty file's size failed |
| WriterHeaders.SecondHeaderIff | src-tauri/src/acp_transcript.rs:423-467 | a header written straight through onto a non-empty file adds a line if and only if that lookup failed and nothing else told of a header |
| WriterHeaders.BlindHeaderIsStoredTwice | src-tauri/src/acp_transcript.rs:423-427 | an input on which one failed lookup leaves two headers |
| WriterHeaders.HeaderFlagMeans | src-tauri/src/acp_transcript.rs:454-467 | over every run the writer remembers a header if and only if one landed or one was answered at sight; an abandoned one is not remembered |
| WriterAcks.AckedIff | src-tauri/src/acp_transcript.rs:429-482 | over all runs a caller is told yes if and only if its record is in a landed batch or is a header that repeats a known one |
| WriterAcks.AckedEntryIsStored | src-tauri/src/acp_transcript.rs:429-556 | over all runs an entry whose caller was told yes is in a landed batch, and on a boundary-ended file some parsed line carries it, its text whole |
| WriterAcks.AckedAheadIff | src-tauri/src/acp_transcript.rs:434-467 | in every reachable state, a header is acked with no header in the file if and only if the writer is not poisoned and either a header is still buffered, or the file holds something else and the writer looked or remembers |
| WriterAcks.RepeatedHeaderAckedEarly | src-tauri/src/acp_transcript.rs:434-439 | an input on which a repeated header is acked while nothing has been stored |
| WriterAcks.LateHeaderIsNeverStored | src-tauri/src/acp_transcript.rs:434-467 | an input on which a header that follows an entry is acked and no header is ever stored |
| WriterTheorems.AppendReadsIff | src-tauri/src/acp_transcript.rs:602-614 | appending records reads as appended if and only if the file ended on a line boundary |
| WriterTheorems.TornTailSwallows | src-tauri/src/acp_transcript.rs:602-614 | onto a torn tail, exactly the first appended record is lost |
| WriterTheorems.LandedEntryIsReadable | src-tauri/src/acp_transcript.rs:519-528 | on a boundary-ended file, a landed batch with an entry in it makes the parsed file have entries |
| SessionWriters.SessionWriter.Accept | src-tauri/src/acp_transcript.rs:429-452 | in place, the new state is the one the theorems are proved about, in each of the refused, repeated, buffered and flushed cases |
| SessionWriters.SessionWriter.Flush | src-tauri/src/acp_transcript.rs:502-556 | in place, file, buffer, flags and answers end as in the model for every I/O outcome |
| SessionWriters.SessionWriter.WriteBatch | src-tauri/src/acp_transcript.rs:516-556 | write, rollback, newline and poisoning taken step by step on the file end in the model's state |
| SessionWriters.SessionWriter.ResolveEach | src-tauri/src/acp_transcript.rs:474-482 | every pending caller is answered once, in order, and the deadline is cleared |
| SessionWriters.SessionWriter.HeaderAlreadyStands | src-tauri/src/acp_transcript.rs:423-467 | true exactly when a header was written, is buffered, or the file is seen not to be empty; then remembered |
| SessionWriters.SessionWriter.NextDeadline | src-tauri/src/acp_transcript.rs:470-472 | the flush window after the oldest pending record |
| ReplayGate.NoFalseNo | src-tauri/src/acp_transcript.rs:1122-1133 | in every interleaving of callers, queue, writer, evictions, guard drops and the gate's two reads, a "no" means every prompt queued before the gate started was discarded, for a file no writer found hiding what it appends and a read that got through it |
| ReplayGate.CountsAreLiveGuards | src-tauri/src/acp_transcript.rs:276-317 | in every interleaving the shared count of a path is the number of live guards, an entry exists exactly when it is positive, and every queued prompt is in flight, landed or discarded |
| ReplayGate.ServedInOrder | src-tauri/src/acp_transcript.rs:803-821 | over every run the writer thread takes jobs in the order they were handed to the channel |
| GateLimits.GateAnswersIff | src-tauri/src/acp_transcript.rs:1134-1158 | with anything between its two reads, the gate answers yes if and only if the first found a prompt of the path queued or not let go of, or the second, getting through, an entry in the file |
| GateLimits.GateIsSoundIff | src-tauri/src/acp_transcript.rs:1122-1133 | without an eviction of the path and with reads that get through, no run over the files gives a false no if and only if the file ends on a line boundary or a line it closed holds an entry |
| GateLimits.EvictedGateIsSoundIff | src-tauri/src/acp_transcript.rs:417-421 | with evictions too, no run gives a false no if and only if a line the file had closed holds an entry |
| GateLimits.HistoryIsNeverDenied | src-tauri/src/acp_transcript.rs:1122-1158 | over a file with an entry on a closed line, its last line torn or not, every read that gets through answers yes, in every run, evictions and poisoned writers included |
| GateLimits.LandedPromptShowsIff | src-tauri/src/acp_transcript.rs:602-614 | a prompt that lands can be seen by the gate if and only if the file does not end mid-line over no closed entry |
| GateLimits.HiddenPromptIsDenied | src-tauri/src/acp_transcript.rs:1122-1133 | from every quiet state over such a file, closed lines before the torn one or not, a run in which a prompt lands, is acked and is denied |
| GateLimits.UnreadFileIsDenied | src-tauri/src/acp_transcript.rs:1060-1064 | over every file, the same run when the gate's read cannot open it |
| ReplayGate.SettleKeepsCounts | src-tauri/src/acp_transcript.rs:803-834 | a writer step moves each prompt from in flight to landed or discarded without losing count of its guard |
| ReplayGate.SettleKeepsShows | src-tauri/src/acp_transcript.rs:803-834 | after a writer step a file not found hiding things still has something to show for every landed prompt |
| ReplayGate.NextKeepsGate | src-tauri/src/acp_transcript.rs:1122-1133 | what the gate has concluded between its reads stays true under every other step |
| Utf8.DecodeAtNewline | src-tauri/src/acp_transcript.rs:1054-1080 | lossy UTF-8 decoding commutes with splitting at the newline byte, for all byte strings |
| Utf8.NoNewlineDecoded | src-tauri/src/acp_transcript.rs:1054-1080 | no newline character is decoded from bytes without a newline byte |
| Utf8.DecodeEncoded | src-tauri/src/acp_transcript.rs:1002-1019 | decoding inverts encoding: the lossy decoder loses nothing that was sound |
| Utf8.FirstMeans | src-tauri/src/acp_transcript.rs:1002-1019 | each decoded character is the one encoded there, or one U+FFFD for the longest part that still opened an encoding, or for a byte that opened none |
| LineReaders.FirstChunkIsFirstLine | src-tauri/src/acp_transcript.rs:1060-1082 | the first chunk read and decoded on its own trims to the first line of the decoded file, and the other lines are those of the remaining bytes |
| LineReaders.ParseTranscript | src-tauri/src/acp_transcript.rs:1021-1043 | the entries are those of strictly increasing lines, which are exactly the lines that trim to something, parse as an entry and are not the first header line; the header is that line's, and absent only if none parses as one |
| LineReaders.ParseReads | src-tauri/src/acp_transcript.rs:1021-1043 | the same said of every sequence of lines |
| Whitespace.TrimCutsEnds | src-tauri/src/acp_transcript.rs:1027 | trimming cuts all whitespace at both ends and nothing else |
| LineReaders.ReadHeader | src-tauri/src/acp_transcript.rs:1089-1099 | stopping early, it answers the header the whole-file parse would have found, on every byte string |
| LineReaders.HasEntries | src-tauri/src/acp_transcript.rs:1142-1158 | stopping early, it answers whether the whole-file parse would have found an entry, on every byte string |
| Chains.ReadChain | src-tauri/src/acp_transcript.rs:1172-1206 | the merged entries are the links' entries oldest first, under the oldest header present |
| Chains.EntriesByPosition | src-tauri/src/acp_transcript.rs:1196-1206 | entry j of a link stands in the merged conversation after all entries of every older link and its own first j; nothing else is in it |
| Chains.EscapingIdReadsEmpty | src-tauri/src/acp_transcript.rs:194-211 | an id that names no file of the directory reads as an empty conversation that continues nothing, whatever is stored |
| Chains.CollectChain | src-tauri/src/acp_transcript.rs:1172-1194 | the loop over links visits the chain's transcripts, newest first, and ends on any link graph |
| Chains.ContinuationAncestors | src-tauri/src/acp_transcript.rs:1221-1242 | the loop answers the ids walked from the session's own link |
| Chains.WalkVisitsOnce | src-tauri/src/acp_transcript.rs:1172-1242 | on any link graph a walk visits no id twice and none it was told to avoid |
| Chains.WalkFollowsLinks | src-tauri/src/acp_transcript.rs:1172-1242 | each id visited is the one the previous continues |
| Chains.ChainIsAncestors | src-tauri/src/acp_transcript.rs:1172-1242 | the chain after its first id is a prefix of the ancestors, and equals them if and only if they are fewer than the depth cap |
| Chains.OldestHeaderIsLast | src-tauri/src/acp_transcript.rs:1196-1206 | the merged header is that of the oldest link that has one, and is absent only if none has |
| Chains.HidingLosesNothing | src-tauri/src/acp_transcript.rs:1253-1270 | when links run out within the cap, every stored session is on the chain of a stored session that is not superseded; `Supersession.HidingLosesNothingIff` covers cycles |
| Chains.CycleHidesBoth | src-tauri/src/acp_transcript.rs:1253-1270 | two sessions continuing each other hide each other |
| Supersession.HidingLosesNothingIff | src-tauri/src/acp_transcript.rs:1253-1270 | when no chain reaches the cap, every stored session is on the chain of one that is not superseded if and only if every cycle is continued by some stored session off it |
| Supersession.OldestIsCutOff | src-tauri/src/acp_transcript.rs:1160-1194 | of a conversation one session longer than the cap, the oldest is on no listed chain |
| Supersession.CycleIsWalkedWhole | src-tauri/src/acp_transcript.rs:1172-1194 | a walk that starts anywhere on a cycle visits the whole cycle and nothing else |
| TokenFiles.CrashesAreAtomic | src-tauri/src/keyring_store.rs:144-287 | any sequence of operations, each failing anywhere or cut by a crash after any step, none reading while the lookup of a backup that holds the store fails, leaves a store that reads as a map an atomic execution of the same operations holds |
| TokenFiles.UpdateSurvives | src-tauri/src/keyring_store.rs:504-547 | after every single step of an operation that is not blind in that way the store reads as the committed map or the new one, never back again; at its end, as the new one exactly if success was reported |
| TokenFiles.UpdateSucceedsIff | src-tauri/src/keyring_store.rs:144-287 | an edit of a store that parses succeeds if and only if the read, the filling of the temporary file, the move aside where there is a file to move, and the final rename go through |
| TokenFiles.EditIsReadBack | src-tauri/src/keyring_store.rs:504-547 | after a success that did not read blindly a read answers the secret put, or its absence, and every other slot as before |
| TokenFiles.WorkingUpdateTidies | src-tauri/src/keyring_store.rs:198-242 | with every step working the edited map is the live file with no sibling left; with only the last rename failing, the map found is |
| TokenFiles.AttemptSurvives | src-tauri/src/keyring_store.rs:504-547 | one such attempt, crashed or not, ends in a store meaning the old or the new map |
| TokenFiles.PublishSurvives | src-tauri/src/keyring_store.rs:198-242 | moving aside, installing and restoring keep one of the two maps readable, whichever renames fail |
| TokenFiles.ReadAnswersMeaning | src-tauri/src/keyring_store.rs:144-187 | a read that succeeds answers what the store means if and only if it was not blind or there was nothing to be blind to; recovering a backup changes nothing, its re-opening may fail |
| TokenFiles.SuccessIsTrueIff | src-tauri/src/keyring_store.rs:504-547 | an operation that reported success has left the edited store if and only if it did not read blindly or the store held nothing beyond the edit |
| TokenFiles.BlindWriteLosesStore | src-tauri/src/keyring_store.rs:168-184 | an input (live file moved aside, one failed lookup of the backup) on which a successful write loses every other secret |
| TokenFiles.UnparsableIsKept | src-tauri/src/keyring_store.rs:504-547 | an unreadable store is reported and its bytes are never overwritten, unless the read was blind, when it is replaced |
| TokenFiles.KeysAreDistinct | src-tauri/src/keyring_store.rs:4-36 | accounts, channels and named secrets never share a key, and no two slots of one kind do |
| TokenFiles.EditTouchesOneSlot | src-tauri/src/keyring_store.rs:504-607 | setting or deleting one slot leaves every other slot's secret alone |
| TokenStores.TokenStore.ReadTokens | src-tauri/src/keyring_store.rs:144-187 | in place, the answer and every intermediate disk are the specification's |
| TokenStores.TokenStore.PublishTemp | src-tauri/src/keyring_store.rs:198-242 | in place, the outcome and every intermediate disk are the specification's |
| TokenStores.TokenStore.WriteTokens | src-tauri/src/keyring_store.rs:248-287 | in place, the outcome and every intermediate disk are the specification's |
| TokenStores.TokenStore.UpdateSlot | src-tauri/src/keyring_store.rs:504-547 | in place, read then write; every intermediate disk is the specification's |
| TokenStores.TokenStore.Lookup | src-tauri/src/keyring_store.rs:525-538 | present, absent and unavailable told apart by what the store means, which is unchanged; a blind read says absent |
| Supervisors.NoWorkerEscapesAStop | src-tauri/src/supervise.rs:59-110 | in every interleaving of handlers, loop and worker, once a stop was asked for and handlers and tracking are done every running worker has been signalled; one spawned after the stop was, whatever the handlers still do |
| Supervisors.LoadedPidIsUnreaped | src-tauri/src/supervise.rs:164-217 | a handler never loads the pid of a reaped worker except in the one step before it is cleared, none during the relaunch delay; the loop never lacks a child to wait for |
| Supervisors.RollbackNeedsTrial | src-tauri/src/supervise.rs:120-161 | a rollback is only tried on a launch that found the marker, and the marker is still there unless that launch's worker reverted the upgrade itself |
| Supervisors.LaunchesAreBounded | src-tauri/src/supervise.rs:198-276 | at most two launches and one rollback per initial start or upgrade restart, and at most two launches in all after a stop was asked for |
| Supervisors.LoopNeedsRestarts | src-tauri/src/supervise.rs:163-281 | every run's loop steps are bounded by a constant per upgrade restart plus the waits that had to be repeated |
| Supervisors.DoKeepsInv | src-tauri/src/supervise.rs:54-282 | every step of loop, handlers, worker and clock keeps the invariants behind the four theorems above |
| Supervisors.CoveredInLoop | src-tauri/src/supervise.rs:140-161 | every loop step keeps the trial window inside the time the marker stands |
| Supervisors.ReachedInLoop | src-tauri/src/supervise.rs:87-110 | every loop step keeps each unsignalled worker within reach of a pending signal once a stop was asked for |
| SupervisorOutcomes.DecisionLeadsTo | src-tauri/src/supervise.rs:220-276 | in every reachable state, a death leads to the pause if and only if it asked for a restart, to a relaunch of the restored version if and only if it was on trial inside the window and the rollback restored, and else out with its own code, 128 + signal for a kill |
| SupervisorOutcomes.FailedSpawnLeadsTo | src-tauri/src/supervise.rs:120-137 | a failed spawn leads to the restored version if and only if the launch was on trial and the rollback restored, and else out with code 1 |
| SupervisorOutcomes.EarlyDeathIsRolledBack | src-tauri/src/supervise.rs:209-253 | between any steps of handlers, clock and worker, a staged version that dies inside its window is rolled back: with no stop, the next thing spawned is the restored version, off trial |
| SupervisorOutcomes.DeathEndsLoop | src-tauri/src/supervise.rs:209-276 | in the same interleavings, a death off trial, after the window, or that cannot be rolled back ends the supervisor with its own exit code |
| SupervisorOutcomes.RestartIsHonoured | src-tauri/src/supervise.rs:222-246 | in the same interleavings, a restart asked for leads to a first launch after the pause, on trial exactly when an upgrade was staged at the death |
| SupervisorOutcomes.StopEndsLoop | src-tauri/src/supervise.rs:212-216 | a death after a stop ends the supervisor with code 0, whatever the status |
| SupervisorOutcomes.StopDuringPause | src-tauri/src/supervise.rs:226-228 | so does a stop that comes during the pause |
| SupervisorOutcomes.WaitLeadsTo | src-tauri/src/supervise.rs:164-207 | an interrupted wait, or one that reaped an orphan, is taken up again for the same worker; a failed one ends the supervisor with code 1 |
| SupervisorOutcomes.SignalReachesWorker | src-tauri/src/supervise.rs:59-110 | in every interleaving in which a stop signal ever arrived, once handlers and tracking are done every running worker has been told |
| SupervisorOutcomes.SurvivorClearsMarker | src-tauri/src/supervise.rs:140-151 | a staged version that lives through its window can take the marker off then, and no sooner |
| WindowsSupervisors.Run | src-tauri/src/supervise.rs:284-349 | which launches are taken and rolled back, and the exit code, for every script of launches |
| WindowsSupervisors.LaunchesPerRestart | src-tauri/src/supervise.rs:284-349 | at most two launches and one rollback per restart asked for, and as many before the first |
| WindowsSupervisors.UnspawnableIsFinal | src-tauri/src/supervise.rs:297-308 | a launch that cannot be spawned ends the supervisor with code 1 and no rollback |
| PetStates.PromptingMeans | src-tauri/src/pet_state_mapper.rs:97-193 | after any trace a connection is prompting exactly when, as a session, it last said so and nothing since ended it |
| PetStates.ErringMeans | src-tauri/src/pet_state_mapper.rs:97-208 | after any trace a connection is erring exactly when, as a session, it last reported an error and neither status, delegation, overrun nor recovery cleared it |
| PetStates.PendingMeans | src-tauri/src/pet_state_mapper.rs:97-208 | after any trace a request is pending for a connection exactly when it asked as a session and nothing since answered, ended or took over the request |
| PetStates.ChildrenMean | src-tauri/src/pet_state_mapper.rs:97-142 | after any trace, overruns included, a connection is excluded exactly when a delegation of it started and has neither ended nor disconnected since |
| PetStates.NoSubAgentCounts | src-tauri/src/pet_state_mapper.rs:97-208 | no tracked sub-agent is ever prompting, erring or holding a request |
| PetStates.AmbientStateMeans | src-tauri/src/pet_state_mapper.rs:229-244 | after any trace the ambient state is failed, waiting, running or idle exactly as some session is erring, else some answer awaited, else some session prompting, by the history |
| PetStates.SignalCommutesIff | src-tauri/src/pet_state_mapper.rs:105-142 | a child's event before and after its announcement leave the same snapshot if and only if it is not a disconnect, not its own completion, and uses no request of another connection |
| PetStates.OrderDoesNotMatter | src-tauri/src/pet_state_mapper.rs:105-142 | with request ids used by one connection only, any number of a child's signals may come before or after its announcement |
| PetSubscribers.EveryLoopHead | src-tauri/src/pet_state_mapper.rs:336-513 | at every loop head last state, shared handle, last emission and the state computed from the history agree, no two emissions in a row are equal, and a failure shown has a running timer or a queued clear |
| PetSubscribers.FailedIsNeverStuck | src-tauri/src/pet_state_mapper.rs:294-313 | from every reachable state, every run without a new error whose end is a recovery window later, with due timers fired and queued clears taken, has left failed |
| PetSubscribers.FailureCanEnd | src-tauri/src/pet_state_mapper.rs:294-313 | such a run always exists: the timer and message already there end the failure within one recovery window |
| PetSubscribers.WindowIsWhole | src-tauri/src/pet_state_mapper.rs:500-512 | with no stale clear about, no run clears a new failure before its window is over |
| PetSubscribers.WindowIsCut | src-tauri/src/pet_state_mapper.rs:500-512 | with a stale clear about, some run does |
| PetSubscribers.StaleClearHappens | src-tauri/src/pet_state_mapper.rs:500-512 | a run that reaches such a state, in which a failure just raised is cleared at once |
| PetSubscribers.ErrorRestartsWindow | src-tauri/src/pet_state_mapper.rs:290-307 | from every reachable state an error raised, while one is shown too, drops the timer named before and names one due a whole window from now, every other timer as it was |
| PetSubscribers.RecoveryStopsTimer | src-tauri/src/pet_state_mapper.rs:398-408 | once nothing is failing the named timer is gone |
| PetSubscribers.TimersLetGo | src-tauri/src/pet_state_mapper.rs:415-512 | falling behind and shutting down stop the named timer; a clear only forgets it |
| PetSubscribers.ArmedKept | src-tauri/src/pet_state_mapper.rs:294-319 | every step keeps a failure on show armed |
| PetSubscribers.HistoryKept | src-tauri/src/pet_state_mapper.rs:336-513 | every step keeps the snapshot the meaning of the recorded history |
| Pets.PetGlobalState.Apply | src-tauri/src/pet_state_mapper.rs:97-193 | the four collections updated in place end as the snapshot the history theorems are about |
| Pets.PetGlobalState.ResetAfterOverrun | src-tauri/src/pet_state_mapper.rs:204-208 | volatile sets cleared, the sub-agents kept |
| Pets.Subscriber.HandleEvent | src-tauri/src/pet_state_mapper.rs:355-414 | in place, snapshot, timer, state, handle and emissions end as in the model |
| Pets.Subscriber.HandleLag | src-tauri/src/pet_state_mapper.rs:415-455 | in place, the same for a bus overrun |
| Pets.Subscriber.HandleClear | src-tauri/src/pet_state_mapper.rs:500-511 | in place, the same for a timer message |
| Pets.Subscriber.ScheduleFailedRecovery | src-tauri/src/pet_state_mapper.rs:294-307 | the running timer is replaced by one due a full window from now |
| TextCaps.ShownIffWhollyKept | browser-agent/src/index.ts:315-328 | of a tree that was cut, each line counts as shown exactly when all of it was kept, if and only if the cut was not made at an empty first line |
| TextCaps.Truncate | browser-agent/src/index.ts:662-673 | a prefix, no longer than a positive cap, the whole text when it fits |
| TextCaps.ShownRefs | browser-agent/src/index.ts:315-328 | exactly the named refs of nodes on the lines counted as shown |
| BrowserRefs.CapSplitsRefs | browser-agent/src/index.ts:263-282 | surviving and cut-away refs partition the generated ones, and a ref survives exactly when it is on a line wholly kept |
| BrowserRefs.RefSafety | browser-agent/src/index.ts:340-359 | over every run an answered ref quotes the last snapshot's token and no other, was generated by it and not cut, names a connected element, and with the Navigation API no same-document navigation happened since |
| BrowserRefs.RefIsAnsweredIff | browser-agent/src/index.ts:142-183 | after a snapshot and whatever followed, on any engine, a ref is answered, with its element, if and only if it quotes that token, was shown, its element is connected, no fragment change or traversal was heard, and address, history length and entry are those of the snapshot |
| BrowserRefs.GoodRefIsAnswered | browser-agent/src/index.ts:340-345 | a shown ref quoted with the last token on a page that has not navigated is answered |
| BrowserRefs.CutRefIsBlamed | browser-agent/src/index.ts:425-447 | on a page that has not navigated, a ref of either of the last two tokens is put down to the cap exactly when the last snapshot generated it again and cut it |
| BrowserRefs.TokensDiffer | browser-agent/src/index.ts:284-291 | tokens are injective in sequence number and epoch; absent and empty epoch differ |
| BrowserRefs.BlameIsJust | browser-agent/src/index.ts:425-447 | a ref put down to the caller's own cap was in the snapshot before the last, generated by the last and cut from it; under the current token the page has not navigated |
| BrowserRefs.BlameOutlivesNavigation | browser-agent/src/index.ts:425-447 | a run in which that blame is given under the earlier token although the page navigated away and back |
| BrowserRefs.ReplaceAwayAndBack | browser-agent/src/index.ts:155-178 | without the Navigation API, a run in which a replaceState away and back leaves a ref answered |
| BrowserRefs.MovesShowKept | browser-agent/src/index.ts:142-183 | every step keeps a navigation since the snapshot visible to the checks |
| BrowserAgents.BrowserAgent.Snapshot | browser-agent/src/index.ts:247-306 | the module's variables, replaced in place, end as the table the theorems are about |
| BrowserAgents.BrowserAgent.DropUnshown | browser-agent/src/index.ts:263-275 | deleting key by key leaves exactly the shown refs and names exactly the others |
| BrowserAgents.BrowserAgent.ElementForRef | browser-agent/src/index.ts:340-345 | an element exactly when token, address, history, table and connectedness all agree |
| ConsoleBudget.EveryLineIsCounted | src/browser-injected/helper.js:307-342 | over any run, lines offered = lines posted + drops reported + drops outstanding |
| ConsoleBudget.DropsGetReported | src/browser-injected/helper.js:307-342 | outstanding drops always have a running flush timer due within its delay, page hides included, and its firing reports them |
| ConsoleBudget.DropsGoWithTheNext | src/browser-injected/helper.js:307-343 | a page hide reports the drops outstanding, and the next line that goes through carries them |
| ConsoleBudget.FirstDropSetsTimer | src/browser-injected/helper.js:310-314 | the first drop outstanding starts the one timer, a flush delay later; later ones start none and put nothing off |
| ConsoleBudget.DropsOnlyOverBudget | src/browser-injected/helper.js:322-331 | a line is dropped only when a whole budget of lines went out within the second before |
| ConsoleBudget.AtMostTwoBudgets | src/browser-injected/helper.js:322-341 | no closed second carries more than 400 posted lines, whatever the clock |
| ConsoleBudget.AtMostOneShortOfTwoBudgets | src/browser-injected/helper.js:322-341 | from any clock past its first second, no half-open second carries more than 399 posted lines |
| ConsoleBudget.BudgetIsTight | src/browser-injected/helper.js:322-341 | from any clock past its first second, a run with 400 lines in a closed second, 399 of them in its last two milliseconds |
| ConsoleBudget.SpacedKept | src/browser-injected/helper.js:322-341 | every step keeps posted lines a budget apart in windows a second apart |
| ConsoleForwarders.ConsoleForwarder.Forward | src/browser-injected/helper.js:322-341 | the closure's variables, updated in place, end as in the model |
| ConsoleForwarders.ConsoleForwarder.Flush | src/browser-injected/helper.js:315-321 | drops outstanding become one report |
| ConsoleForwarders.ConsoleForwarder.Note | src/browser-injected/helper.js:310-314 | one more drop, and a timer if none is named |
| ShellQuoting.QuotedReadsBack | src-tauri/src/git_credential.rs:16-28 | for every value and every unquoted state, the shell reads the quoted value as exactly that value in one word and is left unquoted |
| ShellQuoting.QuotedAnywhere | src-tauri/src/git_credential.rs:16-28 | the same between any text that leaves the shell unquoted and any text after |
| ShellQuoting.ShSingleQuote | src-tauri/src/git_credential.rs:16-28 | the character loop builds the text the round trip is proved of |
| ShellQuoting.LineReads | src-tauri/src/git_credential.rs:87-97 | a command line of bare words and quoted values reads as exactly those words |
| ShellQuoting.HelperLineReads | src-tauri/src/git_credential.rs:87-97 | the helper script's command line has exactly its five words, whatever the two paths contain |

## Left out

- ReplayGate.NoFalseNo: does not cover a file some writer found ending mid-line over no closed entry, or a read that stops early, because the claim is false there (`GateLimits.HiddenPromptIsDenied`, `GateLimits.UnreadFileIsDenied`).
- WriterTheorems.RunPreservesMeaning: does not cover runs with an abandoned partial write, where the writer can believe in a turn the file has ended; `WriterTheorems.LiveIsSafeIff` says exactly when it matters.
- BrowserRefs.RefSafety: without the Navigation API it does not exclude a navigation, because the claim is false there (`BrowserRefs.ReplaceAwayAndBack`).
- Chains.HidingLosesNothing: does not cover cyclic links; `Supersession.HidingLosesNothingIff` does, exactly.
- TokenFiles.CrashesAreAtomic: does not cover a run that reads while the lookup of the backup fails, because the claim is false there (`TokenFiles.BlindWriteLosesStore`).
- Projection.ProjectTurns: does not model block contents beyond what merging and turn boundaries can touch: image decoding, tool output rendering and titles are opaque values.
- CallHistory.CallShowsLatest: not across a plan when the call goes by the plan card's own id, `acp-plan`: the reader keeps one card for both.
- ToolCards.OneCardPerCall: prompts and user chunks are taken to hold no tool cards, as their wire format cannot.
- Supervisors.NoWorkerEscapesAStop: does not model a signal the worker ignores, job control stops, or the exit of the supervisor's own process under an unhandled signal.
- JSON text and serde: records print and parse abstractly, and byte-level readers take the two line decoders as parameters. Every recorded payload is taken to decode.
- LineReaders.ReadHeader: reads the bytes through; a read error is modelled only for the gate's own scan. A linked transcript that cannot be read is taken as missing, and every walk sees the same one.
- Paths that cannot be resolved to a file.
- Durability below a completed rename or write: a crash keeps the steps that were taken.
- Concurrent holders of the credential store: the source runs each operation under one mutex, and so does the model.
- Idle time itself: the replay gate model lets any writer with nothing buffered be evicted at any moment.
- The OS keyring branch, file permissions, logging and its throttles, metrics, and poisoned mutexes.
- One-shot pet animations and the web side-channel, which never touch the ambient state.
- The aria tree, its rendering, hit testing and actions: a tree arrives as text, nodes by line and elements by ref.
- Text clipping and addresses in console lines, and how thrown values are described.
- Batch-file quoting on Windows, and what a shell does after token recognition (expansion, redirection). Reading stops being modelled at an unquoted or double-quoted `$` or backquote.
- The unix supervisor as a loop in a method: it has no end and shares two atomics with its handlers, so it is a state machine.
- Update download and file swapping, deep links, folder links, workspace transfer, database code and user interface: wiring and I/O around the parts above.
