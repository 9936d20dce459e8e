# Verified model of the ChatGPT–Claude bridge

The repository lets Codex, OpenAI's coding client, use Claude. A *bridge* runs one
Claude Code process for each Codex thread and turns what Claude does into the
replies Codex expects; a *router* in front of it shares Codex's traffic out between
OpenAI and the other models. This project models the parts of both in which a
wrong step would lose, repeat or corrupt something, and proves that none does, in
every run and for every input, except where a lemma gives the input for which one
does and the exact condition under which none does.

`dafny verify dfyconfig.toml` checks it.

## What is modelled

**Patches** (`Text`, `Lcs`, `Diff`, `DiffTrim`, `Hunks`, `PatchDocument`,
`PatchWriter`). Claude's edits reach Codex as apply_patch documents. The diff trims
what two files have in common at both ends, fills a flat table of 32-bit entries
backwards for what is left, walks it, groups changes into hunks and prints them. The
loops are proved against a recursive specification; the specification is proved to
keep as many lines as any common subsequence of the whole files can, its hunks to be
disjoint, complete and with their context, and its documents to read back, by the
grammar they are written in, as what turns the one file into the other. Files are
compared by lines, as the program does: `Text.LinesForget` says exactly what that
forgets.

**Edits** (`Substrings`, `FileEdits`, `EditDecision`, `EditCalls`, `EditOrder`,
`CountingFile`, `EditRouting`). Claude's Edit and Write calls, which Claude's stream
and MCP bring in either order: how each is decided and its decision held and
dropped, how later calls of a reply see the files as earlier ones leave them, what
of it goes to Codex when the message ends, and what replaying that does, whichever
way the check with Codex's patch engine comes out. `EditDecision` gives each
decision from the call and the file's text alone. `EditRouting` proves these
decisions to be those of the session's router, step by step. `CountingFile` has the
contents for which any other order than that of the decisions fails.

**The reply stream** (`ReplyStream`, `ReplyScript`, `StreamWriter`, `EventReader`,
`EventBlocks`). One Codex reply as numbered events over a connection that may fail
at any event; a reader that follows the protocol is the independent reference, and
`ReplyScript` says what the reply holds and how it ends from the calls alone.
`EventReader` is the part of section 9.2.6 of the WHATWG HTML standard that both
programs rely on.

**What Claude has seen** (`Seen`, `SeenInput`). Codex resends the whole thread with
every request; ids and content hashes decide what is new.

**The session** (`Session`, `SessionSafety`, `RouterSafety`, `CallerSafety`,
`CallFate`, `Mail`, `RequestOutcome`, `StepOutcome`, `RoundTrip`, `ToolRouter`,
`CodexStreams`, `SessionObject`). Codex requests, Claude's events and MCP calls take
turns under one lock. Each section between taking the lock and releasing it is one
step of a state machine, so a run of the machine is any interleaving; a request that
restarts Claude for another effort level, and an MCP call, are several steps.
`RequestOutcome` and `StepOutcome` say what each step comes to from what it brings.
`SessionObject.ThreadSession` has the methods that change fields in place, each
proved to end where its step does. Its fields are kept in three objects under the
one lock: the tool-call router, the open request, and the rest.

**The router's websocket** (`Drain`, `Upstream`, `Continuation`,
`WebsocketSession`). The count of responses in flight and the drain of a stopping
server as interleaved atomic steps, half-done endings included; and the messages of
one session, with the conversation the router keeps so that a message can continue
the response before it.

**The catalog** (`Catalog`, `CatalogEntries`). External models merged into a native
model catalog.

## Where the code does not do what it says

- Claude's Edit is to be turned down unless the text to replace is unique. The code
  counts occurrences that do not overlap, so replacing `aa` in `aaa` is accepted
  (`FileEdits.EditOfOverlap`). `FileEdits.EditOfUniqueText` says exactly when an
  accepted Edit is of a unique text.
- A Write or an Edit that changes only the line break at the end of a file is turned
  down, in words that say the file already holds exactly that content. For an Edit
  they are wrong every time, since an Edit always changes the text
  (`FileEdits.EditOfFinalBreak`; `FileEdits.TurnedDownExactlyWhen`,
  `FileEdits.WriteTurnedDown` and `FileEdits.EditTurnedDown` are equivalences).
- A tool call is to be classified once, and its decision shared by Claude's stream and
  the MCP call. A rejection is dropped once MCP has told it, so a call the stream
  brings after that is decided anew, and may be accepted though Claude was told that it
  failed (`EditRouting.RejectedThenAccepted`). A repeat changes nothing exactly when
  the decision is still held or the call is rejected again
  (`EditCalls.RepeatChangesNothing`), and a decision is held exactly until something
  drops it (`EditCalls.HeldUntilDropped`).
- The view of the files follows the calls as they are decided; Codex gets them when the
  message ends, as the stream brought them, and gets none when no Codex request is open
  then (`EditCalls.DroppedMessage`, `CallFate.DisconnectDrops`). For messages whose calls
  are all accepted, under ids of their own, with no decision dropped, and whichever of
  stream and MCP brings each first: replaying what Codex gets leaves the files of the
  view, whatever the calls say, exactly when the stream brings each once, in the order
  they were decided, and a request is open or no call came
  (`CountingFile.HandedOverExactlyWhen`; `CountingFile.OutOfOrder` has contents that fail
  otherwise). For any other message the condition is proved to suffice: that the calls
  noted are the calls accepted, in order (`EditCalls.HandedOverMatchesView`). A call
  without an id that MCP brings changes the view, and is then refused
  (`EditCalls.CallWithoutId`).
- A path with a line break is accepted, and its document does not read back: replaying
  gives the view exactly when no accepted path has one (`EditCalls.ApplyFresh`,
  `EditCalls.ReplayMatchesView`).
- An MCP call waits until its result comes, the turn is stopped or Claude hangs up. One
  whose id another MCP call repeats loses its place, and no result and no stop answers
  it (`CallerSafety.SecondCallStrands`; `CallerSafety.WaitingCallsTied` is the
  equivalence).
- Agent messages that arrive with tool results ride on the last result that reaches
  Claude. When an earlier output of the request answers the same call, that last one
  is history by the time it is routed and the messages are lost
  (`Mail.MailLostOnRepeat`; `Mail.MailRidesOnCarrier` is the equivalence).
- When Claude does not take a message, the blocks held back for it go with it
  (`Mail.BlocksLost`; `Mail.BlocksConveyed` is the equivalence).
- To a Claude that has seen nothing the whole thread passes, so an id that occurs
  twice in it passes twice (`Seen.WholeThreadRepeats`). From there no message id passes
  twice in a run of requests exactly when the first request that holds a message has no
  two messages with one id (`Seen.NoIdTwiceExactlyWhen`).

## Model

| member | source | states |
|---|---|---|
| Text.LinesForget | bridge/internal/patch/patch.go:35-41 | two texts have the same lines exactly when they are equal or one is the other, non-empty and not ending in a line break, with a final line break added |
| Text.JoinSplit | bridge/internal/patch/patch.go:35-41 | splitting a text at line breaks forgets nothing |
| Lcs.NoneLonger | bridge/internal/patch/patch.go:86-96 | no common subsequence of two lists is longer than the table's recurrence says |
| Lcs.TrimmedNoneLonger | bridge/internal/patch/patch.go:55-78 | nor is one of two lists with a common head and tail longer than these and what the middles have in common: trimming loses nothing |
| Diff.WalkSides | bridge/internal/patch/patch.go:97-111 | the greedy walk reads as the one list on its old side and the other on its new side, and keeps as many lines as the table promises |
| Diff.WalkRemovalsFirst | bridge/internal/patch/patch.go:97-111 | the walk puts no added line directly before a removed one |
| Diff.EntryFits | bridge/internal/patch/patch.go:86-96 | in a table within the cell limit no 32-bit entry overflows |
| Diff.FillTable | bridge/internal/patch/patch.go:86-96 | the in-place loops leave every entry at the common length of the two suffixes, every index in range |
| Diff.WalkTable | bridge/internal/patch/patch.go:97-111 | the walk over the filled table yields the specified operations |
| Diff.LcsOps | bridge/internal/patch/patch.go:85-112 | table and walk together do |
| Diff.CountHead | bridge/internal/patch/patch.go:56-59 | the head counter stops after the longest common head |
| Diff.CountTail | bridge/internal/patch/patch.go:60-63 | the tail counter stops after the longest common tail of what follows |
| Diff.AppendMiddle | bridge/internal/patch/patch.go:69-78 | a middle too large for the table becomes one block of removals and additions, any other goes through the table |
| Diff.Diff | bridge/internal/patch/patch.go:55-83 | the loops produce the specified diff, in both modes |
| Diff.DiffSides | bridge/internal/patch/patch.go:55-83 | the diff's old side is the first list and its new side the second, in both modes |
| Diff.DiffKeepsMost | bridge/internal/patch/patch.go:55-112 | whenever the middle goes through the table, the kept lines are a common subsequence of the whole lists and none is longer |
| Diff.DiffUnchanged | bridge/internal/patch/patch.go:55-83 | the diff changes nothing exactly when the lists are equal |
| Diff.DiffRemovalsFirst | bridge/internal/patch/patch.go:55-83 | removed lines come before the added lines that replace them in the whole diff too |
| DiffTrim.KeepsMostBetween | bridge/internal/patch/patch.go:55-83 | however two lists share a start and an end, if what lies between makes at most four million pairs of lines: no common subsequence of the whole lists is longer than what the diff keeps |
| DiffTrim.DiffIs | bridge/internal/patch/patch.go:55-83 | for the longest start the lists share and the longest end of what follows: the diff keeps both, and between them walks the table or, past four million, removes and adds everything |
| DiffTrim.TrimExists | bridge/internal/patch/patch.go:55-63 | any two lists have such a start and end |
| DiffTrim.OneLineChanged | bridge/internal/patch/patch.go:55-83 | a list of any length with its first line changed: one removal, one addition, the rest kept |
| Hunks.FindHunks | bridge/internal/patch/patch.go:117-129 | the one pass that extends the last hunk in place finds the specified hunks |
| Hunks.SlicesCover | bridge/internal/patch/patch.go:117-144 | the printed slices are non-empty, strictly ordered and disjoint, and every changed operation is in exactly one |
| Hunks.SliceContext | bridge/internal/patch/patch.go:117-144 | each slice is a hunk's changes with three kept lines around it, fewer only at the ends of the file |
| Hunks.HunksTight | bridge/internal/patch/patch.go:119-129 | no hunk holds an unchanged stretch longer than the merge gap |
| Hunks.TogetherExactlyWhen | bridge/internal/patch/patch.go:119-129 | two changes next to each other are in one hunk exactly when at most six kept lines lie between them |
| Hunks.ReplayTurnsOldIntoNew | bridge/internal/patch/patch.go:117-144 | replacing each hunk's old lines by its new lines, where it stands, turns the old side of any diff into its new side |
| Hunks.ReplayDiff | bridge/internal/patch/patch.go:55-144 | so the hunks of two files' diff turn the one into the other |
| Hunks.NoHunksWhenSame | bridge/internal/patch/patch.go:117-132 | there is no hunk exactly when the line lists are equal |
| PatchDocument.UpdateReadsBack | bridge/internal/patch/patch.go:133-143 | an Update document reads back, by its grammar, as exactly its hunks, whatever their lines say |
| PatchDocument.AddReadsBack | bridge/internal/patch/patch.go:147-162 | an Add document reads back as the lines of its content |
| PatchDocument.RewriteReadsBack | bridge/internal/patch/patch.go:152-162 | a Rewrite document reads back as a deletion and the lines of its content |
| PatchDocument.ReadsBackWhenOneLine | bridge/internal/patch/patch.go:117-162 | all three do exactly when the path holds no line break |
| PatchWriter.Update | bridge/internal/patch/patch.go:117-144 | the method prints the specified document, and reports false exactly when both files have the same lines |
| PatchWriter.UpdateCarriesChange | bridge/internal/patch/patch.go:117-144 | the hunks a reader gets back from the document, put where the diff has them, turn the old lines into the new ones |
| PatchWriter.WriteHunks | bridge/internal/patch/patch.go:133-143 | the builder ends with every hunk's slice printed in order |
| Substrings.FindsFirst | bridge/internal/translate/files.go:63-80 | an occurrence is found where the first one starts, if there is one |
| Substrings.UniqueOccurrence | bridge/internal/translate/files.go:63-80 | a count of one is a unique occurrence exactly when none starts inside the first |
| Substrings.ReplaceAllSwaps | bridge/internal/translate/files.go:75-76 | replacing all swaps every counted occurrence and keeps the text between them |
| FileEdits.DecideCall | bridge/internal/translate/files.go:39-90 | the branches of the code, running the patch writer, reach the specified decision and refusal |
| EditCalls.EditDesk.Decide | bridge/internal/bridge/session.go:526-571 | a call is decided unless its decision is held; an accepted edit is checked, replaced by a rewrite if need be, and layered over the disk |
| EditCalls.EditDesk.MessageStart | bridge/internal/bridge/session.go:450-454 | a new message drops the layer and notes nothing yet; decisions stay |
| EditCalls.EditDesk.RecordCall | bridge/internal/bridge/session.go:485-502 | a call from the stream is decided and, when accepted, noted on an open message |
| EditCalls.EditDesk.CallTool | bridge/internal/bridge/session.go:699-727 | a call over MCP is decided, and a rejection told and dropped |
| EditCalls.EditDesk.Drop | bridge/internal/bridge/session.go:733-737 | a call that was answered or cancelled loses its decision |
| EditCalls.ApplyFresh | bridge/internal/bridge/session.go:526-571 | an accepted document, Add, Update or Rewrite, applies to the files as Claude sees them and leaves the file as Claude then sees it, exactly when its path holds no line break |
| EditCalls.ReplayMatchesView | bridge/internal/bridge/session.go:526-571 | replaying the accepted documents of any arrivals, in the order they were decided, succeeds and leaves exactly the files of the view, line for line, exactly when no accepted path holds a line break |
| EditCalls.NotedExactlyWhen | bridge/internal/bridge/session.go:485-524 | what is noted for Codex keeps in step with what was accepted exactly when the stream brings each call before MCP has it accepted, and none again that is |
| EditCalls.HandedOverMatchesView | bridge/internal/bridge/session.go:508-524 | when the calls noted are the calls accepted, in order, replaying what goes to Codex leaves the files of the view exactly when a Codex request is open or nothing was accepted, and no path holds a line break |
| EditCalls.EditDesk.MessageStop | bridge/internal/bridge/session.go:508-517 | a message that ends hands over its calls if a request is open, and forgets them |
| EditCalls.DroppedMessage | bridge/internal/bridge/session.go:514-517 | a Write in the view that never goes to Codex |
| EditRouting.FlushAgrees | bridge/internal/bridge/session.go:508-524 | the router comes to await exactly the calls handed over here, and none when no request is open |
| EditOrder.HandsOver | bridge/internal/bridge/session.go:485-524 | of a message whose calls are all accepted, whichever of stream and MCP brings each first, the calls go to Codex as they were decided, in the order the stream brings them, if a request is open, and none otherwise; the view is that of their decisions |
| EditOrder.InOrderGivesView | bridge/internal/bridge/session.go:508-524 | what goes to Codex gives the view when the stream brings each once, in the order of the decisions, and a request is open or no call came |
| CountingFile.HandedOverExactlyWhen | bridge/internal/bridge/session.go:508-524 | for every order in which stream and MCP bring calls: what goes to Codex gives the view for all contents exactly when the stream brings each once, in the order they were decided, and a Codex request is open when the message ends or no call came |
| CountingFile.OutOfOrder | bridge/internal/bridge/session.go:508-524 | otherwise, contents for which it does not |
| EditCalls.CallWithoutId | bridge/internal/bridge/session.go:718-721 | a call without an id that changes the view and never goes to Codex |
| EditCalls.RepeatChangesNothing | bridge/internal/bridge/session.go:528-541 | a call that comes again leaves the view as it is, and is not accepted again, exactly when its decision is still held or it is rejected on the view as it is now |
| EditCalls.HeldUntilDropped | bridge/internal/bridge/session.go:699-738 | a decision is held, unchanged, all along any arrivals exactly when none drops it: its call answered or cancelled, or its rejection told over MCP |
| EditCalls.AppliedOnce | bridge/internal/bridge/session.go:528-541 | so a call whose decision nothing dropped is applied once, however often it comes again |
| EditRouting.RejectedThenAccepted | bridge/internal/bridge/session.go:707-712 | an Edit that Claude was told is rejected, and that is accepted when the stream brings it |
| EditRouting.DecideAgrees | bridge/internal/bridge/session.go:528-541 | the router's decision on an Edit or Write is the one taken here |
| EditRouting.RecordAgrees | bridge/internal/bridge/session.go:485-502 | the router records exactly the calls noted here |
| EditRouting.CallAgrees | bridge/internal/bridge/session.go:699-731 | an MCP call holds and drops the same decisions in the router |
| EditRouting.DropAgrees | bridge/internal/bridge/session.go:733-737 | so does an answer |
| EditRouting.CancelAgrees | bridge/internal/bridge/session.go:653-660 | and a cancel |
| FileEdits.EditOfUniqueText | bridge/internal/translate/files.go:63-80 | an accepted Edit swaps the first occurrence alone, which is the only one exactly when none overlaps it |
| FileEdits.EditOfOverlap | bridge/internal/translate/files.go:63-80 | an accepted Edit of a text that occurs twice, overlapping |
| FileEdits.EditNeedsFile | bridge/internal/translate/files.go:63-80 | an Edit is accepted only for a file that is there and holds the text, which is not empty and not its own replacement |
| FileEdits.EditOfAllText | bridge/internal/translate/files.go:73-76 | an accepted replace_all swaps every counted occurrence and keeps the rest |
| FileEdits.TurnedDownExactlyWhen | bridge/internal/translate/files.go:63-87 | an Edit or Write of a file that is there is turned down as changing nothing exactly when nothing else is wrong with it and it leaves the file's text or changes its final line break alone |
| FileEdits.WriteTurnedDown | bridge/internal/translate/files.go:81-87 | so a Write is, exactly when its content is the file's or differs in the final line break alone |
| FileEdits.EditChanges | bridge/internal/translate/files.go:63-80 | an Edit that nothing else is wrong with leaves another text, one occurrence replaced or all |
| FileEdits.EditTurnedDown | bridge/internal/translate/files.go:63-87 | so an Edit is turned down so exactly when it changes the final line break alone, and then it does change the file |
| FileEdits.EditOfFinalBreak | bridge/internal/translate/files.go:81-87 | such an Edit |
| EditDecision.EditDecided | bridge/internal/translate/files.go:43-90 | every Edit of a file that can be read: turned down exactly on its ground, a relative path, no text, the same texts, none found, or two occurrences apart without replace_all, in that order; without one it leaves the occurrences taken from the left replaced, or the first, and is the update to that, or turned down when the lines are the same |
| EditDecision.EditAcceptedExactlyWhen | bridge/internal/translate/files.go:43-90 | so an Edit is accepted if and only if its path is absolute, the old text is not empty, not the new one and occurs, replace_all is set or no two occurrences lie apart, and the text left differs as lines |
| EditDecision.LeavesOne | bridge/internal/translate/files.go:63-80 | there is one text an Edit can leave |
| EditDecision.NoTextDecided | bridge/internal/translate/files.go:43-90 | a missing or unreadable file: what an Edit and a Write of it come to |
| EditDecision.WriteDecided | bridge/internal/translate/files.go:43-90 | a Write of a file that is there: accepted, as the update to its content, exactly when its path is absolute and the lines differ |
| ReplyStream.RunGood | bridge/internal/responses/stream.go:77-254 | after any calls and failures everything written reads back; while the stream is open the reader has exactly its output and open item, done texts being the concatenated deltas; the next index counts both; the finished channel is closed once if the stream is closed, else never |
| ReplyStream.FailureCutsShort | bridge/internal/responses/stream.go:229-254 | whatever fails when, the events written are a prefix of the failure-free run, numbered from 1, with one response.created first and at most one terminal event, last |
| ReplyStream.CompletedListsItems | bridge/internal/responses/stream.go:194-213 | a written response.completed lists exactly the items done before it, in index order |
| ReplyStream.NothingAfterEnd | bridge/internal/responses/stream.go:194-216 | an event that ends a readable reply is its last |
| ReplyScript.SaysTheScript | bridge/internal/responses/stream.go:103-191 | after any calls and failures the finished items and the open one say exactly what the calls asked to be said, each character as answer or as reasoning, each finished item, in order |
| ReplyScript.CodexHasTheScript | bridge/internal/responses/stream.go:103-191 | while the reply is open, what Codex rebuilds from the events says all of it |
| ReplyScript.ItemsAsWanted | bridge/internal/responses/stream.go:103-191 | until the reply is asked to end its items are the ones the calls make: which delta begins one, which goes to the one open, with which id, and what ends it |
| ReplyScript.EndsAsAsked | bridge/internal/responses/stream.go:194-216 | a reply that nothing cuts short is closed exactly when a call ended it, and nothing is written after the first that does |
| ReplyScript.TerminalEvent | bridge/internal/responses/stream.go:194-228 | its last event is response.completed, with the given usage, exactly when the first ending call completes it, and response.failed, with the given code, exactly when that fails it; both list the items of the calls before, which say all that was said |
| StreamWriter.Stream.constructor | bridge/internal/responses/stream.go:77-91 | a new stream has written response.created, or is closed |
| StreamWriter.Stream.Emit | bridge/internal/responses/stream.go:229-247 | one event is numbered and written; a failed write closes the stream; a closed one writes nothing |
| StreamWriter.Stream.StartReasoning | bridge/internal/responses/stream.go:103-112 | opens a reasoning item at the next index, closing open text first |
| StreamWriter.Stream.ReasoningDelta | bridge/internal/responses/stream.go:115-123 | an empty delta does nothing, any other is appended to the open item and written |
| StreamWriter.Stream.FinishReasoning | bridge/internal/responses/stream.go:126-142 | closes the reasoning item with its done events and appends it to the output |
| StreamWriter.Stream.Note | bridge/internal/responses/stream.go:146-150 | a note is a reasoning item of its own |
| StreamWriter.Stream.TextDelta | bridge/internal/responses/stream.go:153-166 | opens a message at the first delta, closing reasoning first, and appends |
| StreamWriter.Stream.FinishText | bridge/internal/responses/stream.go:168-180 | closes the message with its done events and appends it to the output |
| StreamWriter.Stream.Add | bridge/internal/responses/stream.go:183-191 | closes what is open, then writes and lists a finished item |
| StreamWriter.Stream.Complete | bridge/internal/responses/stream.go:194-202 | closes what is open, writes response.completed with the output, and closes the stream |
| StreamWriter.Stream.Fail | bridge/internal/responses/stream.go:205-213 | the same with response.failed |
| StreamWriter.Stream.HasOutput | bridge/internal/responses/stream.go:99-100 | there is output exactly when an index was given out |
| StreamWriter.Stream.Abandon | bridge/internal/responses/stream.go:215-216 | ends the stream without writing |
| EventReader.ReadEvents | router/internal/proxy/websocket.go:611-638 | the loop passes on the specified events and error, stopping where the callback says or the connection fails |
| EventReader.WrittenReadsBack | router/internal/proxy/websocket.go:611-638 | any list of plain payloads, printed as both programs print them, reads back as that list, each once and in order, up to where the callback stops |
| EventReader.ReadsBackWhenPlain | router/internal/proxy/websocket.go:611-638 | a printed event reads back as itself exactly when its payload is non-empty and has no line break and no trailing carriage return |
| EventBlocks.PassesOnBlocks | router/internal/proxy/websocket.go:611-638 | for any text: the lines between blank ones make an event, its data lines joined by line breaks, carriage returns at line ends dropped; these are passed on in order up to where the callback stops, then the one no blank line finished, unless the connection failed there, which is the one error |
| Seen.ExtensionPassesAdded | bridge/internal/translate/input.go:103-155 | once a thread was handed over and left something seen, any later extension of it, strict or not, passes only items of what was added |
| Seen.NeverTwice | bridge/internal/translate/input.go:103-138 | from a non-empty start no message id passes twice in any run of requests, and a strict request passes no content that came before |
| Seen.NoIdTwiceExactlyWhen | bridge/internal/translate/input.go:103-155 | starting with nothing seen, no message id passes twice in a run of requests exactly when the first request that holds a message has no two messages with one id |
| Seen.StrictPassesUnseen | bridge/internal/translate/input.go:128-131 | a strict request passes nothing whose content was already seen |
| Seen.WholeThreadRepeats | bridge/internal/translate/input.go:141-155 | to a Claude that has seen nothing an id that occurs twice passes twice |
| Seen.TypedAgain | bridge/internal/translate/input.go:103-138 | after a thread that was handed over, a new user message passes alone even when its text repeats an earlier one, unless the request is strict |
| Seen.SeenExactly | bridge/internal/translate/input.go:56-84 | what has been seen is what was, and the ids and contents of the messages looked at |
| Seen.PassesExactlyWhen | bridge/internal/translate/input.go:103-155 | which items of a request pass, from the items and what was seen: each condition for a Claude that has seen something, and every known kind for one that has not |
| Seen.AddedPassesExactlyWhen | bridge/internal/translate/input.go:103-138 | which items added to a thread that was handed over pass, from those added and what was seen: new developer and agent messages too |
| Seen.PassesInOrder | bridge/internal/translate/input.go:103-155 | what passes, and the tool outputs, keep the thread's order |
| Seen.NewestKept | bridge/internal/translate/input.go:88-88 | what is saved of a list is its end, all of it or as many as are kept |
| Seen.SavedAndLoaded | bridge/internal/translate/input.go:45-88 | what was seen survives a save and load exactly while neither list outgrows what is kept |
| Seen.StaysValid | bridge/internal/translate/input.go:56-84 | the seen lists never hold anything twice |
| Seen.PassingPlaces | bridge/internal/translate/input.go:103-155 | the messages handed on are exactly the items that pass, by place |
| SeenInput.SeenSets.constructor | bridge/internal/translate/input.go:45-54 | loading adds every saved id and hash once, in order |
| SeenInput.SeenSets.NewInput | bridge/internal/translate/input.go:103-138 | the loop returns the items that pass and the tool outputs, in order, and records every message |
| SeenInput.SeenSets.Admit | bridge/internal/translate/input.go:121-135 | one message is recorded and passes exactly under the code's conditions |
| SeenInput.SeenSets.History | bridge/internal/translate/input.go:141-155 | the whole thread passes, known kinds only, and is recorded |
| SeenInput.SeenSets.Add | bridge/internal/translate/input.go:56-61 | records a hash, and an id unless it is empty |
| SeenInput.SeenSets.AddId | bridge/internal/translate/input.go:76-84 | adds a value once, order and membership in step |
| SeenInput.SeenSets.NewestIds | bridge/internal/translate/input.go:65-88 | keeps the newest values up to the limit |
| SeenInput.LastUser | bridge/internal/translate/input.go:107-112 | finds the newest user message |
| SessionSafety.StreamsSettle | bridge/internal/bridge/session.go:234-261 | in every run the stream of every request Codex made is the open one or finished, across replacement, disconnects and the unlocked effort switch |
| SessionSafety.ServedAreRequests | bridge/internal/bridge/session.go:234-245 | the streams served are exactly those of the requests |
| SessionSafety.ReportsAreSums | bridge/internal/bridge/session.go:476-478 | the tokens a completion reports are exactly the sums of the message_delta counts since its stream was opened |
| SessionSafety.CompletesExactlyWhen | bridge/internal/bridge/session.go:508-630 | a step completes a Codex request, the open one and once, exactly at the end of a message with calls, of a turn that succeeded, of the compaction it asked for, or when it asks to compact a running turn |
| RequestOutcome.RequestDoes | bridge/internal/bridge/session.go:263-317 | what a request does to Claude's turn and its stream, from its outputs, its new messages and the calls awaited: command, blocks with those held back, nudge or nothing goes out; and its stream stays open exactly when something goes out and Claude takes it, or nothing does and an output reaches the turn or one runs, else it fails |
| RequestOutcome.ResultArrives | bridge/internal/bridge/session.go:263-288 | the first output for a call the turn waits for arrives there, with the new agent messages exactly when it is the last that reaches the turn |
| StepOutcome.EndsExactlyWhen | bridge/internal/bridge/session.go:207-630 | every step: whether the open request stays, completes, fails or is closed without a word, and what it is told |
| StepOutcome.TurnExactly | bridge/internal/bridge/session.go:207-630 | every step: what Claude is told, and so whether its turn runs, is strict, nudged, interrupted, compacting, what is held back, and whether Claude runs |
| StepOutcome.CancelsExactlyWhen | bridge/internal/bridge/session.go:289-660 | a pending call is cancelled exactly when new messages come without a result, Codex leaves a running turn, Claude exits or the session is closed |
| StepOutcome.WaitEndsExactlyWhen | bridge/internal/bridge/session.go:289-694 | an awaited call stops being awaited exactly when a request brings its result, it is cancelled, or the turn is interrupted |
| StepOutcome.SavesExactlyWhen | bridge/internal/bridge/session.go:383-394 | what is on disk changes exactly with a message Claude takes, the end of a turn and a hand-over of calls, and is then the state as it is |
| StepOutcome.SeenExactlyWhen | bridge/internal/bridge/session.go:263-325 | what Codex sends counts as seen exactly when it is taken or asks for a compaction |
| SessionSafety.RestartResumesTurn | bridge/internal/bridge/session.go:136-144 | once it saved, a session made again from disk starts interrupted exactly when a turn was running, and a process nudges Claude at most once |
| SessionSafety.RestartRemembers | bridge/internal/bridge/session.go:632-638 | in any run a session made again from a save has seen exactly what it had, exactly while neither list outgrows what is kept, and awaits the same calls |
| RouterSafety.CallsStayApart | bridge/internal/bridge/session.go:640-746 | in every run no call is both pending and queued, every pending call waits on an empty channel of its own, and every channel is sent to at most once |
| RouterSafety.DeliversOnOwnChannel | bridge/internal/bridge/session.go:679-694 | a delivered result is the only thing ever sent on its own call's channel, whose slot is free, so the send under the lock cannot block |
| RouterSafety.OneDeliveryPerWait | bridge/internal/bridge/session.go:508-524 | in every run, between two deliveries for a call that are not history, Claude began to await it anew |
| CallerSafety.WaitingCallsTied | bridge/internal/bridge/session.go:699-746 | in every run a waiting MCP call has its one result on its channel, or is the pending call of its id, exactly unless a later call under that id took its place |
| CallerSafety.LostWaitsForever | bridge/internal/bridge/session.go:728-745 | a call that lost its place is sent nothing in any continuation |
| CallerSafety.SecondCallStrands | bridge/internal/bridge/session.go:728-729 | two calls under one id and an interrupt: the second gets the error, the first goes on waiting |
| CallFate.AwaitedExactlyWhen | bridge/internal/bridge/session.go:508-524 | no step but the end of a message that has the call, with a Codex request open, makes a call awaited, and that always does |
| CallFate.MessageExactly | bridge/internal/bridge/session.go:450-517 | the calls on the open message after every step |
| CallFate.BroughtCallFate | bridge/internal/bridge/session.go:485-524 | in every run a call for Codex that the stream brought is awaited, or still on the open message, or was dropped unasked, or its wait is over |
| CallFate.UnaskedGetsNoResult | bridge/internal/bridge/session.go:679-746 | in every run an MCP call pending while Codex was not asked for it gets nothing but the error of a cancel until a message that has it ends with a request open |
| CallFate.DisconnectDrops | bridge/internal/bridge/session.go:363-374 | Codex leaves in mid-message: none of the message's calls is awaited when it ends |
| Mail.GoesWhereItWould | bridge/internal/bridge/session.go:673-694 | although earlier outputs change the maps, an output goes where it would have gone first, unless an earlier one answers the same call: then it is history |
| Mail.FirstResultArrives | bridge/internal/bridge/session.go:279-288 | once a request is routed, the first result for each call Claude waits for is alone on that call's channel or queued, and is awaited no more |
| Mail.CarrierIsLast | bridge/internal/bridge/session.go:265-274 | the carrier is the last output that reaches Claude's turn, if one does |
| Mail.MailRidesOnCarrier | bridge/internal/bridge/session.go:265-288 | new mail reaches Claude with the carrier's output, and with no other, exactly when no earlier output answers the carrier's call; otherwise the carrier is history |
| Mail.MailLostOnRepeat | bridge/internal/bridge/session.go:265-288 | a request that answers an awaited call twice loses its mail |
| Mail.MessageGoesOneWay | bridge/internal/translate/agents.go:34-43 | every new message is exactly one piece of the mail or of the rest, each in order |
| Mail.BlocksConveyed | bridge/internal/bridge/session.go:293-316 | no block is lost, doubled or reordered, across what is held back too, exactly unless Claude does not take a message that is not a command |
| Mail.BlocksLost | bridge/internal/bridge/session.go:302-304 | a held block and a new one lost when Claude does not run |
| Mail.EverythingNewArrives | bridge/internal/bridge/session.go:263-316 | with distinct calls and a Claude that takes the message, all mail arrives with the carrier and everything else as blocks or as the command |
| Mail.OrphansAreLost | bridge/internal/bridge/session.go:279-296 | the orphans are exactly the first answers to calls of a turn that was lost |
| RoundTrip.EitherOrder | bridge/internal/bridge/session.go:679-746 | in a running turn the MCP call and the result may come in either order: the call gets that result, and the router is left the same |
| RoundTrip.ResultComesBack | bridge/internal/bridge/session.go:279-288 | the first result Codex then sends is where the call takes it, whatever else comes with it |
| RoundTrip.StopEndsCalls | bridge/internal/bridge/session.go:363-374 | when a running turn is stopped every pending call gets an error, and every result sent afterwards for its calls is history |
| RoundTrip.StopAnswersWaiting | bridge/internal/bridge/session.go:640-660 | in every run a stop leaves each waiting MCP call with its result or the error, exactly unless a later call under its id took its place |
| ToolRouter.ToolCalls.CancelPending | bridge/internal/bridge/session.go:653-660 | the loop, in whatever order, ends with every waiting call cancelled |
| ToolRouter.ToolCalls.Interrupt | bridge/internal/bridge/session.go:640-650 | cancels what waits and awaits nothing |
| ToolRouter.ToolCalls.Deliver | bridge/internal/bridge/session.go:679-694 | routes one result and says where it went |
| ToolRouter.ToolCalls.FindCarrier | bridge/internal/bridge/session.go:268-273 | the forward loop finds the last output that resumes |
| ToolRouter.ToolCalls.RouteOutputs | bridge/internal/bridge/session.go:279-288 | the loop routes every output in order and collects the orphans |
| ToolRouter.ToolCalls.Decide | bridge/internal/bridge/session.go:528-541 | a call id keeps its first decision |
| ToolRouter.ToolCalls.RecordCall | bridge/internal/bridge/session.go:485-502 | notes a Codex call on the message, and forgets what is only shown |
| ToolRouter.ToolCalls.MessageStarts | bridge/internal/bridge/session.go:451-453 | a new message has no calls yet |
| ToolRouter.ToolCalls.AwaitCalls | bridge/internal/bridge/session.go:518-521 | the loop has every call of the message awaited |
| ToolRouter.ToolCalls.CallTool | bridge/internal/bridge/session.go:699-730 | the locked part of an MCP call: answered, given its queued result, or waiting on a new channel |
| ToolRouter.ToolCalls.Receive | bridge/internal/bridge/session.go:732-733 | takes the one result its channel holds |
| ToolRouter.ToolCalls.Answer | bridge/internal/bridge/session.go:733-737 | forgets the decision once the call is answered |
| ToolRouter.ToolCalls.Leave | bridge/internal/bridge/session.go:738-744 | a call whose Claude hung up stops waiting, unless another took its place |
| CodexStreams.OpenRequests.Complete | bridge/internal/bridge/session.go:613-620 | completes the open stream with the tokens counted and resets the counts |
| CodexStreams.OpenRequests.Fail | bridge/internal/bridge/session.go:622-630 | fails the open stream and resets the counts |
| CodexStreams.OpenRequests.OpenStream | bridge/internal/bridge/session.go:238-244 | finishes the stream it replaces and counts from nought |
| CodexStreams.OpenRequests.CountTokens | bridge/internal/bridge/session.go:476-478 | adds a delta to the counts |
| SessionObject.ThreadSession.constructor | bridge/internal/bridge/session.go:123-144 | a session starts from what is on disk |
| SessionObject.NewSession | bridge/internal/bridge/session.go:121-157 | there is a session exactly when the state can be read, the prompt written if need be, and Claude started |
| SessionObject.ThreadSession.Save | bridge/internal/bridge/session.go:632-638 | what is on disk is the turn, the awaited calls and the newest of what was seen |
| SessionObject.ThreadSession.SendUser | bridge/internal/bridge/session.go:383-394 | a message Claude takes opens the turn and is saved; any other changes nothing |
| SessionObject.ThreadSession.Serve | bridge/internal/bridge/session.go:234-261 | one request up to where it may wait for another effort level |
| SessionObject.ThreadSession.Resume | bridge/internal/bridge/session.go:255-261 | the rest of such a request, dropped when Codex has left |
| SessionObject.ThreadSession.TakeRequest | bridge/internal/bridge/session.go:263-317 | deduplicates, routes the outputs and passes the rest on |
| SessionObject.ThreadSession.MakeReady | bridge/internal/bridge/session.go:293-313 | chooses command, blocks, nudge or nothing, and holds blocks back for a command |
| SessionObject.ThreadSession.Compact | bridge/internal/bridge/session.go:323-342 | answers a compaction at once in a running turn, else asks Claude for one |
| SessionObject.ThreadSession.Disconnected | bridge/internal/bridge/session.go:363-374 | closes the stream if it is the open one, and interrupts a running turn |
| SessionObject.ThreadSession.FlushCalls | bridge/internal/bridge/session.go:508-524 | hands the finished message's calls over and completes the request |
| SessionObject.ThreadSession.CompactBoundary | bridge/internal/bridge/session.go:435-439 | notes that Claude carried out the compaction it was asked for |
| SessionObject.ThreadSession.FinishTurn | bridge/internal/bridge/session.go:573-611 | records the end of a turn and settles compaction and stream; nothing while stopping |
| SessionObject.ThreadSession.StopSilentTurn | bridge/internal/bridge/session.go:768-777 | stops a turn only when a request is open and no call waits |
| SessionObject.ThreadSession.ProcessExited | bridge/internal/bridge/session.go:207-220 | an unexpected exit fails the request and cancels the calls |
| SessionObject.ThreadSession.CloseIdle | bridge/internal/bridge/session.go:786-795 | interrupts and lets the process go |
| SessionObject.ThreadSession.ShutDown | bridge/internal/bridge/session.go:801-815 | fails the open request and leaves the turn open on disk |
| SessionObject.SplitAgentMessages | bridge/internal/translate/agents.go:34-43 | the loop separates mail from the rest, in order |
| SessionObject.SplitCommand | bridge/internal/translate/input.go:229-237 | the command that ends the messages, and the blocks of those before it |
| Drain.CounterBalanced | router/internal/proxy/websocket.go:523-567 | in every run the counter is the open HTTP requests, the sessions with a response and the endings yet to subtract, so it is never negative |
| Drain.NoSessionEscapes | router/internal/proxy/websocket.go:571-579 | once Drain returned, every session past its own check is draining; a draining session with nothing in flight and no ending half done has its close issued |
| Drain.NeverBeginsAgain | router/internal/proxy/websocket.go:523-534 | a draining session begins no response in any continuation |
| Drain.TokenStaysEnded | router/internal/proxy/websocket.go:523-556 | a response ended or replaced is never current again |
| Drain.LateEndChangesNothing | router/internal/proxy/websocket.go:548-560 | in every run an ending that comes for such a response at any later point changes nothing at all |
| Drain.ResponseExactly | router/internal/proxy/websocket.go:523-567 | a step begins a response, under a new token, exactly when the session serves and does not drain, and ends the one in flight exactly when the ending names it or none; that ending is then left to subtract, and to close a draining session |
| Drain.EndedByOwnToken | router/internal/proxy/websocket.go:523-567 | in every run a response that begins is in flight under a token none in flight has, counted once, and an ending that names it, or none, ends it, and only once |
| Drain.NothingCutOff | router/internal/proxy/websocket.go:548-579 | in every run a session whose close is issued, or will be by a step under way, drains and has nothing in flight |
| Upstream.Transform | router/internal/upstream/upstream.go:203-232 | the loop rewrites every item of the input in place, reports whether it changed anything, and fails on what it cannot read |
| Upstream.OnePassIsEnough | router/internal/upstream/upstream.go:203-232 | a rule that leaves its own replacements alone has nothing left to do after one pass |
| Upstream.LeavesOnlySealed | router/internal/upstream/upstream.go:60-96 | the rule for OpenAI leaves exactly the items in which everything encrypted is OpenAI's |
| Upstream.NativeAfterOnePass | router/internal/upstream/upstream.go:60-96 | after rewriting for OpenAI nothing is left to rewrite, and Codex's own requests are untouched |
| Upstream.RewritingKeepsSayings | router/internal/upstream/upstream.go:60-96 | rewriting for OpenAI keeps every plain payload, every summary and all ciphertext, in its own item and in order; reasoning without ciphertext is all that goes |
| Continuation.TakenMessagesAreWhole | router/internal/proxy/websocket.go:330-351 | every message taken goes upstream as the whole chain in1, out1, ..., in_k; what it continues completed, was the router's own and came last |
| Continuation.TakenRequestsStandAlone | router/internal/upstream/upstream.go:290-301 | in every run a message that is taken goes upstream as a request that continues nothing, generates, streams, says what the message said, and has the whole chain for its input |
| Continuation.TakenExactlyWhenLast | router/internal/proxy/websocket.go:330-351 | a message is taken exactly when it continues nothing or names the response that came last |
| Continuation.TurnedAwayForgotten | router/internal/proxy/websocket.go:338-342 | in every run a message that is turned away might as well not have come, whatever comes after |
| Continuation.StreamedOutput | router/internal/proxy/websocket.go:382-429 | the output kept from a stream is that of the items done up to its terminal event |
| Continuation.StreamedExactly | router/internal/proxy/websocket.go:382-412 | a stream has ended exactly where its first terminal event was written, with the id of that event or else the last created one, and the items done before it; it is broken exactly where a write fails first |
| Continuation.CompletedExactlyWhen | router/internal/proxy/websocket.go:352-475 | in every run a message that is taken completes, with that id and output, exactly when it asks for no output, is summed up, or its stream ends with response.completed, and every write works; it ends the session exactly when Codex cannot be told |
| Continuation.ContinuedExactlyWhen | router/internal/proxy/websocket.go:338-432 | the message after it can continue it exactly when it completed, under the id it was answered with |
| Continuation.KeptExactly | router/internal/proxy/websocket.go:254-475 | in every run the response kept to be continued, and whether the session is over, are what the messages themselves say |
| Continuation.SentExactly | router/internal/proxy/websocket.go:330-351 | and a message goes upstream, with what is kept before its input, exactly when it names nothing or the response kept |
| WebsocketSession.WsSession.Begin | router/internal/proxy/websocket.go:523-534 | counts a response unless draining, and once if it replaces one |
| WebsocketSession.WsSession.EndResponse | router/internal/proxy/websocket.go:548-567 | ends the named response if it is current, subtracts once, and closes a draining session |
| WebsocketSession.WsSession.DrainNow | router/internal/proxy/websocket.go:571-579 | marks the session and closes it if nothing is in flight |
| WebsocketSession.WsSession.Forward | router/internal/proxy/websocket.go:382-412 | the loop keeps id and finished items up to the terminal event or a failed write |
| WebsocketSession.WsSession.RelayMessage | router/internal/proxy/websocket.go:254-283 | a relayed message drops the kept conversation only once its socket is dialed; a failed write, of the frame or of the dial's error, ends the session |
| WebsocketSession.WsSession.TellError | router/internal/proxy/websocket.go:484-511 | an error event ends the response in flight even when it cannot be written; then the session ends |
| WebsocketSession.WsSession.ServeOther | router/internal/proxy/websocket.go:330-432 | the branches take, refuse, answer or fail a message as specified |
| WebsocketSession.WsSession.Keep | router/internal/proxy/websocket.go:427-431 | a completed response becomes what the next message may continue |
| Catalog.MergeIsIdempotent | router/internal/catalog/catalog.go:68-133 | merging a merged catalog again changes nothing: no entry, order, priority, visibility or comp_hash |
| Catalog.MergedModels | router/internal/catalog/catalog.go:68-133 | slugs come out distinct, and exactly those that went in and are not hidden |
| Catalog.PickerFirst | router/internal/catalog/catalog.go:103-118 | the picker's models come first, each once, in its order, whatever it repeats |
| Catalog.PickerWrites | router/internal/catalog/catalog.go:103-118 | a model in the order has its first place there as priority, and with an order every other model is hidden |
| Catalog.ExternalReplaces | router/internal/catalog/catalog.go:94-101 | an external model comes out as its own entry, whatever native one had its slug |
| Catalog.ExternalsTakeTopHash | router/internal/catalog/catalog.go:119-154 | external models carry the comp_hash of a shown native model of least priority, when there is one |
| Catalog.TopHashIsTop | router/internal/catalog/catalog.go:137-154 | the hash found is that of a native model with one such that none has a lower priority |
| Catalog.NativesKept | router/internal/catalog/catalog.go:103-118 | without an order in the picker a native model keeps its entry |
| CatalogEntries.EntryExactly | router/internal/catalog/catalog.go:78-133 | every entry that comes out is the last under its slug, of the external models if they have it, else of the native ones, key by key but for the priority, visibility and comp_hash the merge writes |
| CatalogEntries.RestAsFirstSeen | router/internal/catalog/catalog.go:94-118 | of the models outside the picker's order the native ones come first, and each kind as first seen |
| Catalog.Merge | router/internal/catalog/catalog.go:68-133 | the loops over maps and lists produce the specified catalog, or fail where the code does |
| Catalog.Collect | router/internal/catalog/catalog.go:78-101 | every shown entry under its slug, a later one replacing an earlier |
| Catalog.TakeOrdered | router/internal/catalog/catalog.go:103-110 | takes the picker's models in its order and deletes them from the map |
| Catalog.TopNativeHash | router/internal/catalog/catalog.go:137-154 | the loop over hash and best finds the specified hash |
| Catalog.SetHash | router/internal/catalog/catalog.go:124-130 | overwrites the external entries' hash and no other |

## Left out

- Processes: Claude Code and Codex themselves; starting, stopping and interrupting them are steps, and Codex's patch check is any yes or no, so both outcomes are covered.
- Content search: a patch document has no line numbers, so replaying one takes each hunk's place from the diff; how Codex's engine finds a place is not part of this model.
- HTTP, websocket dialing and handshakes, zstd, JSON, SHA-256, random ids, Fernet detection, image patterns, tool classification, and the texts of blocks, notes, failures and usage: parameters, opaque values or uninterpreted functions.
- Writes to disk that fail: a save is one assignment.
- Time: watchdog, idle timeout and grace periods are steps that may happen at any moment their guard holds; that a queued result is ever taken, or a turn ever ends, is not claimed.
- Rewriting for OpenRouter and for summaries, the tool registry, file reads with line numbers, search ranking, configuration and scripts: presentation or single branches.
- Compaction notes and the summary text of a compaction: which stream is completed is modelled, the words are not.
- Channels of MCP calls are numbered cells rather than objects; a Go map's iteration order is any order.
- Integers are unbounded, but for the diff table's 32-bit entries; token counts and the product of two lengths do not wrap.
- Strings are sequences of characters; UTF-8 and invalid bytes are not modelled.
- Slices that share memory: a kept conversation is a value, so the capacity the code cuts from it to keep appends apart is not modelled.
- Catalog.MergeIsIdempotent: assumes, as the code does, that no entry is null and that a model's slug is the one in its entry.
- ToolRouter.ToolCalls.Receive: a hung-up call whose channel already holds a result may leave with it unread; the result is then lost, as in the code.
- WebsocketSession.WsSession.EndResponse: runs its three parts undisturbed; their interleavings with other goroutines are the steps of Drain.
- EditCalls.ReplayMatchesView: needs a disk that does not change while the message's calls are decided.
- EditCalls.HandedOverMatchesView: for messages that mix rejected, dropped and accepted calls the condition suffices; that no weaker one does for all contents is CountingFile.HandedOverExactlyWhen, for calls that are all accepted, under ids of their own and on paths without line breaks, with no decision dropped.
