# Verified model of the assistant's protocol, text and package code

This project models, in Dafny, the parts of the desktop assistant whose correctness spans several functions, and
proves what they promise over every input, every interleaving and every run. `dafny verify dfyconfig.toml` checks all
of it.

* **Chat histories and the context budget** (`ToolHistory`, `StoredParts`, `Translation`, `ContextBudget`). Stored
  messages are read as the events that their parts tell, and become protocol messages through a buffer that holds a
  tool exchange until it is complete. The buffer is proved equal to a reference that looks ahead instead, and the
  history it produces is proved well formed. Because of that, cutting the history by a length is a cut between whole
  exchanges.
* **A model call and the agent loop** (`ToolCallStream`, `ModelTurn`, `AgentLoop`). Streamed tool calls are reassembled,
  a silent candidate model gives way to the next one, the reasoning tags are placed, and the loop adds whole rounds.
* **Concurrent runs** (`Sidecar`). The receive loop and the runs are a state machine with one step per await. The
  theorems hold for every list of events, and the class that follows the code step by step is proved to keep to it
  over a whole session.
* **Document parsing** (`LongText`, `TableParts`, `DocumentChunks`, `ItemPlaces`, `ChunkLocations`, `ParserFraming`).
  Windows over long text, row partitions of tables, chunks of a document with their headings, groups and sheets, the
  place of each item read off the item list and where its text is found among the chunks, and line framing of the
  parser's output for any fragmentation.
* **Text scanners** (`MarkdownLines`, `LatexScanner`, `LatexCode`, `LatexTwice`, `LatexCodeFree`, `LineBlocks`,
  `BlockSplitter`, `BlockRules`, `ReadableText`). The four-mode TeX scanner against a reference that looks ahead, where
  code and spans stand in characters, what a second pass of it changes, the block splitter, what it sees in a line and
  what it keeps while a message streams in, and the extraction of a chapter's text from its markup tree.
* **Installing packages** (`Disk`, `Installation`, `SkillIds`, `SkillMetadata`, `SkillStore`, `PackageManifest`,
  `ModelPackage`). A disk on which any operation may fail, and which records every state it passes through; the
  theorems speak of every recorded state, so they also hold when the program stops half way. Which operations fail is
  a function of their number: it decides how a swap, a metadata write or an installation ends, and each ending has its
  exact condition. A single failure never takes an installed package from its place.

`Sequences` and `Whitespace` hold shared helpers.

## How the model is built

Code that changes things step by step is a class or a method with a loop, proved against a function or a predicate;
the lemmas are about that function or predicate. Where the code looks at state it has accumulated, the reference looks
ahead in the input instead, so the two are different definitions of the same thing. What a definition shared by code
and reference stands for is fixed by lemmas that do without it: in characters, in positions of an item list, in the
fields of the settings, in the parts of stored messages, or in the events and the awaits of a run. `Whitespace.Ink` is
the text without its whitespace; `InkHolds` and `InkIsHeld` say that all the rest stands in it, in order.

Library code is a parameter: token counting and JSON rendering (`ContextBudget.Tokenizer`), JSON decoding
(`ParserFraming.Decoder`), digests, path checks and the platform (`ModelPackage.Platform`, the `digest` of
`SkillIds`), what each candidate model streams (`ModelTurn.Attempt`), tool results (`AgentLoop.Turn`). Which disk
operations fail is an arbitrary function of their number (`Disk.Volume.fails`); whether a metadata file, an installed
manifest or the manifest in an archive can be read is a parameter (`readable`).

In `Sidecar`, `Task.lateCancel` only records that a cancellation was raised inside the send of RUN_FINISHED; no step
reads it, and `LateCancelIff` says what it records. Calls of `ws.send` are awaits that may be interrupted by a
cancellation but do not fail by themselves.

## What the code does not promise

* A run cancelled while its prompt is still being prepared ends without any terminal message, and so does one with an
  exception outside the try blocks, such as an ill-typed model configuration (`Sidecar.EndsSilentlyIff`,
  `Sidecar.SilentEndHappens`). One cancelled inside the send of RUN_FINISHED sends both terminal messages
  (`Sidecar.AtMostOneTerminalIff`, `Sidecar.BothTerminalsHappen`).
* Of two calls in flight under one id, one may be stranded for good. A call that waits for its result is stranded
  exactly by a step that registers its id again, or that takes another call under its id out of the table
  (`Sidecar.StrandedIff`). So the second registration strands the first call unless that one has its result already
  (`Sidecar.RepeatedIdStrandsTheFirstIff`, `Sidecar.RepeatedIdHappens`); if it has, or is cancelled, its clean-up
  strands the second call, whose result has not come (`Sidecar.RepeatedIdStrandsTheSecond`,
  `Sidecar.SecondIsStrandedHappens`).
* A second result for a live call, or one between a call's cancellation and its clean-up, ends the receive loop
  (`Sidecar.CrashIff`, `Sidecar.CrashHappens`, `Sidecar.CrashAfterCancelHappens`).
* A stream that gives two calls one id, or an id that is also made up for another call, makes the history malformed
  (`AgentLoop.RunKeepsProtocolIff`, `AgentLoop.RepeatedIdHappens`).
* Reasoning that resumes after content is sent outside the tags (`ModelTurn.ResumesIff`, `ModelTurn.ReasoningResumes`).
* `normalizeLatexDelimiters` is not idempotent (`LatexTwice.NotIdempotent`). It is when every opener starts a segment of
  the text (`LatexTwice.StartingOpenersAreIdempotent`), and more generally when no delimiter that is left over pairs
  with a later one (`LatexTwice.UnpairedIsIdempotent`). For texts that cannot hold code the exact condition is proved
  (`LatexCodeFree.CodeFreeIdempotentIff`). For texts with code only the one direction is, because a rewritten span adds
  line breaks, and these may begin or end an indented or fenced block further on.
* A file of an installed PDF package may be longer than its manifest says, if the archive entry holds more bytes than
  it declares; its digest still matches. It is as long as listed for all block sizes if and only if the entry holds
  exactly that many bytes (`ModelPackage.ExactForAllBlocksIff`; `ModelPackage.OvershootsByOne` is one byte too long),
  so an archive in which no entry holds more than it declares is installed exactly (`ModelPackage.ExtractAndVerify`).
  A manifest that lists its own file name is never installed.
* A PDF package whose manifest is over the size limit as it is written, though not as it was read, is installed and
  then cannot be loaded (`ModelPackage.NewLoadsIff`).
* An installation that reports a failure has put the new package in place exactly when both moves succeed and the
  removal of the old one does not, and has left nothing in place exactly when the new package can be moved neither in
  nor the old one back (`Disk.Volume.Swap`, `Installation.Finish`, `SkillStore.InstallOne`,
  `ModelPackage.InstallArchive`; `Installation.NewInPlaceHappens`, `Installation.NothingInPlaceHappens`). A metadata
  write loses the metadata file, and a skill its place in the list, under the like condition
  (`SkillMetadata.WriteMetadata`, `SkillStore.SetEnabled`).

## Model

| member | source | states |
|---|---|---|
| ToolHistory.GroupProtocolMessages | agent/app/prompt.py:420-452 | the index loop computes the groups given by reading each declaring message with the answers right after it, and downgrading or dropping the rest |
| ToolHistory.ReadAnswers | agent/app/prompt.py:438-445 | the inner loop consumes exactly the leading answers to outstanding ids and reports which ids stay unanswered |
| ToolHistory.GroupsAreUnits | agent/app/prompt.py:420-452 | for any messages every group is a lone non-tool message or a complete exchange, so the grouped history is well formed |
| ToolHistory.GroupsOfUnits | agent/app/prompt.py:420-452 | a history made of units has only one division, and it is the one computed |
| ToolHistory.GroupingIsLosslessIff | agent/app/prompt.py:420-452 | grouping gives all messages back if and only if the history is well formed |
| ToolHistory.WellFormedPositions | agent/app/prompt.py:398-399 | in a well-formed history each declared id is answered exactly once in the positions right after its message, and every tool message is such an answer |
| ToolHistory.WellFormedIffPositionsOk | agent/app/prompt.py:398-452 | a history is well formed if and only if every declaring message has all its answers right after it, each once, and every tool message is such an answer |
| ToolHistory.CallIsAnswered | agent/app/prompt.py:398-452 | in a well-formed history every call with an id has its answer, with only answers in between |
| ToolHistory.AnswerHasCall | agent/app/prompt.py:398-452 | in a well-formed history every tool message answers a call of the assistant message before its answers |
| Translation.StepKeepsPartition | agent/app/prompt.py:265-298 | every event keeps the buffered results and the outstanding ids a partition of the declared ids |
| Translation.RunIsRender | agent/app/prompt.py:300-417 | the buffering state machine yields the history that looking ahead for the answers yields |
| Translation.TranslationIsWellFormed | agent/app/prompt.py:254-417 | whatever is stored, in whatever order, the translated history is well formed |
| Translation.NoTurnIsLost | agent/app/prompt.py:265-275 | every user turn and every non-empty assistant text survives in order, also when its exchange is downgraded |
| Translation.Translator.FinishIncompleteExchange | agent/app/prompt.py:265-275 | an incomplete exchange keeps its text as a plain message and clears the buffer |
| Translation.Translator.EmitAssistant | agent/app/prompt.py:277-298 | plain content is emitted, declared calls start a buffered exchange, an empty turn changes nothing |
| Translation.Translator.AcceptResult | agent/app/prompt.py:385-399 | a result is buffered when its id is outstanding, completes the exchange when it is the last, and is dropped otherwise |
| Translation.Translator.TranslateMessages | agent/app/prompt.py:254-417 | the whole loop refuses exactly when some part does, and for the first one's reason; otherwise it leaves the reference translation of what the stored parts tell: texts, images and calls in the order of the parts, results with their id, tool and content |
| StoredParts.EventsAreTold | agent/app/prompt.py:300-417 | each turn holds what the parts between two results show and declare, each at its place and none left out, a user turn all images of its message; missing arguments are an empty object, and attachments count in user messages only |
| StoredParts.FirstRefusalIs | agent/app/prompt.py:336-357 | a refusal is the first rejected attachment of a user message, and without one there is none |
| Translation.History.AppendToLatestUserMessage | agent/app/prompt.py:236-251 | the text joins the last user message, or becomes one, and nothing else changes |
| Translation.AttachingKeepsWellFormed | agent/app/prompt.py:236-251 | attaching text to a well-formed history keeps it well formed |
| Translation.AttachingKeepsTexts | agent/app/prompt.py:236-251 | the last user message keeps its own text or items in front of the attached text, and nothing else changes |
| ContextBudget.CountGroup | agent/app/prompt.py:168-177 | the token count of a group is the sum over its messages of their texts, an estimate for each image, and their calls |
| ContextBudget.SelectRecent | agent/app/prompt.py:693-711 | the kept groups are the longest suffix of groups within the budget |
| ContextBudget.CutByLengthIsSound | agent/app/prompt.py:724 | on a well-formed history the slice by length is the cut between groups: discarded and kept parts concatenate to it and are well formed |
| ContextBudget.CutHistory | agent/app/prompt.py:690-724 | a well-formed history is cut at a group boundary into discarded and kept parts that concatenate to it, the kept part being the longest that fits |
| ContextBudget.AssemblePrompt | agent/app/prompt.py:649-726 | for every list of stored messages the discarded messages followed by the kept ones are the translated history with the knowledge attached, cut at a group boundary, with the summary in front and the latest input behind; summary and kept groups are within what the settings allow beside the system prompt, and with one more group they would not be |
| ContextBudget.SentMessagesWellFormed | agent/app/prompt.py:668-721 | summary, kept history and latest input together are a well-formed history |
| ContextBudget.SentWithinAllowance | agent/app/prompt.py:660-713 | when history is kept and the system prompt is within the share of the limit and leaves the reserve, so are system prompt, summary and history together |
| ContextBudget.AllowedIff | agent/app/prompt.py:653-669 | the budget is what the settings allow: the share of the limit between none and all of it, or 85 percent, and the limit less the reserve, with the user's limit and the configured output where they are positive |
| ContextBudget.CutByLengthIsSoundIff | agent/app/prompt.py:724 | whatever the budget, the slice by length is a sound cut of the history if and only if the history is well formed |
| ToolCallStream.AddFragment | agent/app/graph.py:720-737 | one fragment keeps the table equal to the per-index assembly of all fragments seen |
| ToolCallStream.Accumulate | agent/app/graph.py:718-737 | after any fragments each index holds the in-order concatenation of its own names and arguments and its last non-empty id |
| ToolCallStream.InterleavingIndependent | agent/app/graph.py:718-737 | streams that agree index by index give the same calls, each as often, however they are interleaved; in the same order if the indices arrive in the same order |
| ToolCallStream.ArrivalsInOrder | agent/app/graph.py:743 | calls come out in the order of their first fragments |
| ToolCallStream.FillIds | agent/app/graph.py:801-805 | only missing ids are replaced, by non-empty ones, and every call keeps its name and arguments |
| ModelTurn.StreamState.Read | agent/app/graph.py:691-737 | one chunk keeps text, reasoning, calls, activity and the tagged output in step with the chunks read |
| ModelTurn.CallModel | agent/app/graph.py:655-827 | the candidates passed over showed nothing and failed, if at all, in a way that allows another model, and none was locked; the one that answers is locked, the last, showed something, or failed in a way that allows no other; the answer, the error and all output are its own; only missing ids are made up; a returning call is locked on it |
| ModelTurn.Try | agent/app/graph.py:670-793 | one pass hands over to the next candidate exactly when nothing is locked, nothing was shown, the failure allows it and there is a next one |
| ModelTurn.FallbackIsInvisible | agent/app/graph.py:764-793 | a candidate that was passed over had emitted nothing, and no lock was set |
| ModelTurn.TagsAroundThoughts | agent/app/graph.py:702-716 | both tags are emitted once each around the first run of reasoning |
| ModelTurn.ResumesIff | agent/app/graph.py:702-716 | some reasoning stands after the closing tag if and only if reasoning resumes after content |
| ModelTurn.ReasoningResumes | agent/app/graph.py:702-716 | a stream of reasoning, content, reasoning sends its last reasoning after the closing tag |
| ModelTurn.TranscriptShape | agent/app/graph.py:702-741 | a stream without reasoning is sent without tags; any other as content, one tagged run of reasoning, and the rest untagged |
| AgentLoop.Agent.CallLlm | agent/app/graph.py:815-827 | the history grows by the selected candidate's reply, or nothing changes when it raises, and only that candidate's output is sent |
| AgentLoop.Agent.ExecuteTools | agent/app/graph.py:850-873 | the history grows by one tool message per pending call, same id and name, with that call's own result, same order |
| AgentLoop.Agent.Run | agent/app/graph.py:875-904 | over any run the history only grows by whole rounds of one and the same model, and the run ends exactly at the first reply without calls or the first error |
| AgentLoop.RoundIsUnit | agent/app/graph.py:850-868 | a round whose ids are distinct is a complete exchange |
| AgentLoop.RepeatedIdBreaksHistory | agent/app/graph.py:850-868 | no history that holds a round with a repeated id is well formed |
| AgentLoop.RepeatedIdHappens | agent/app/graph.py:718-868 | a model that streams two indices with one id does make the history malformed |
| AgentLoop.NoRepeatedIdIff | agent/app/graph.py:801-813 | a round repeats no id if and only if no two streamed ids, no two made-up ones, and no streamed and made-up one are the same |
| AgentLoop.RunKeepsProtocolIff | agent/app/graph.py:718-902 | the grown history is well formed if and only if in every turn the streamed ids and those made up for calls without one are all different |
| Sidecar.StepKeepsWire | agent/app/main.py:107-399 | every step of every task keeps the link between where the task stands and what it has sent |
| Sidecar.AtMostOneTerminalIff | agent/app/main.py:324-399 | in every interleaving a run sends at most one of RUN_FINISHED and RUN_ERROR if and only if no cancellation is raised inside the send of RUN_FINISHED; title updates follow the run's own RUN_FINISHED |
| Sidecar.BothTerminalsHappen | agent/app/main.py:335-390 | a run cancelled inside the send of RUN_FINISHED sends RUN_FINISHED and then RUN_ERROR |
| Sidecar.LateCancelIff | agent/app/main.py:335-390 | the record of a late cancellation is set exactly when a cancellation was raised inside the send of RUN_FINISHED |
| Sidecar.SentIff | agent/app/main.py:107-399 | a message is on the wire if and only if some event made its task send it: RUN_FINISHED when an uncancelled task is woken in the graph and the graph finishes, or after the embedding; RUN_ERROR when the graph raises, or a cancellation is raised there or in the send of RUN_FINISHED |
| Sidecar.MarkedIff | agent/app/main.py:465-482 | a cancellation waits in a task if and only if since the task was last woken one came in under the name that the table gave this task |
| Sidecar.RegisteredIff | agent/app/main.py:465-471 | the table gives a name to a task if and only if the task was started under it, and since then neither another was nor was one of that name that had ended taken out |
| Sidecar.TaskWasStarted | agent/app/main.py:465-471 | every task carries the name of the request that started it |
| Sidecar.OnlyWakesMove | agent/app/main.py:107-482 | no event but its own wake-up changes where a task stands |
| Sidecar.WokenGoesTo | agent/app/main.py:107-399 | which await a woken task goes to, by where it stands and what it does |
| Sidecar.EndsSilentlyIff | agent/app/main.py:113-282 | a task ends without a terminal message if and only if before it calls the graph its cancellation is raised or an exception outside the try blocks is |
| Sidecar.SilentEndHappens | agent/app/main.py:113-282 | a run cancelled during preparation, and one that breaks off there, ends without sending anything |
| Sidecar.StepKeepsFutures | agent/app/main.py:200-222 | futures belong to their calls, registered futures to live calls, deliveries to their own futures |
| Sidecar.StepKeepsReachableIff | agent/app/main.py:202-203 | every live call stays reachable through its id if and only if the step does not register an id in flight |
| Sidecar.RunKeepsReachable | agent/app/main.py:202-222 | with distinct ids in flight every live call is reachable after any run |
| Sidecar.ResultReachesItsCall | agent/app/main.py:200-207 | a result reaches the call that registered its id, also while the call is still sending its request, whatever happens before its next wake-up |
| Sidecar.DeliveriesAreOwn | agent/app/main.py:207-222 | whatever a call is given was stored in its own future under its own id |
| Sidecar.CrashIff | agent/app/main.py:473-477 | a tool result ends the receive loop if and only if it is the second for a live call or comes between a call's cancellation and its clean-up |
| Sidecar.CrashHappens | agent/app/main.py:473-477 | two results for one call end the receive loop |
| Sidecar.CrashAfterCancelHappens | agent/app/main.py:473-477 | a result between a call's cancellation and its clean-up ends the receive loop |
| Sidecar.RepeatedIdStrandsTheFirstIff | agent/app/main.py:202-203 | registering an id in flight leaves the earlier call's future unresolved for ever if and only if its result has not come by then |
| Sidecar.RepeatedIdStrandsTheSecond | agent/app/main.py:202-222 | when the earlier call has its result or is cancelled, its clean-up leaves the later call's future, still unresolved, so for ever |
| Sidecar.StrandedIff | agent/app/main.py:202-222 | a step strands a call that expects its result if and only if it registers the id again or takes another call under that id out of the table; the call is then stranded for ever |
| Sidecar.RepeatedIdHappens | agent/app/main.py:200-203 | two runs reach a point where the second registers the id that the first has in flight |
| Sidecar.SecondIsStrandedHappens | agent/app/main.py:200-222 | two runs reach a point where the first call is served and the second, under the same id, is stranded |
| Sidecar.Loop.OnRunRequest | agent/app/main.py:465-471 | the receive loop's handling of a run request is the step of the state machine |
| Sidecar.Loop.OnToolResult | agent/app/main.py:473-477 | the receive loop's handling of a tool result is the step of the state machine |
| Sidecar.Loop.OnRunCancel | agent/app/main.py:479-482 | the receive loop's handling of a cancellation is the step of the state machine |
| Sidecar.Loop.RegisterCall | agent/app/main.py:200-203 | the call's future is in the table under its id, waiting, and nothing has been sent yet |
| Sidecar.Loop.SendRequest | agent/app/main.py:205-206 | a request is only put on the socket when its future is already in the table |
| Sidecar.Loop.StartCall | agent/app/main.py:200-206 | registering and then sending is the step of the state machine |
| Sidecar.Loop.AwaitResult | agent/app/main.py:205-222 | a call takes its result if it is there, leaves the table, and lets the graph go on; otherwise it waits |
| Sidecar.Loop.RaiseCancelled | agent/app/main.py:371-390 | a cancelled call leaves the table, and the cancellation is reported exactly inside the graph and the send of RUN_FINISHED |
| Sidecar.Loop.OnWake | agent/app/main.py:107-399 | running a task from one await to the next is the step of the state machine |
| Sidecar.Loop.Serve | agent/app/main.py:441-482 | for every list of events the loop ends in the state the machine reaches; exactly the messages are sent that some event made their tasks send, and exactly the cancellations wait that came in for a task since it was last woken; each run has sent at most one terminal message unless a cancellation landed in the send of its RUN_FINISHED, titles follow their RUN_FINISHED, and every delivery is the call's own |
| Sidecar.Session | agent/app/main.py:441-482 | the same for the messages of a whole session from an empty table |
| LongText.SplitLongText | document-parser/app/parser.py:372-389 | the loop gives the trimmed non-blank texts of the windows |
| LongText.WindowsTile | document-parser/app/parser.py:375-388 | windows run from the start to the end, at most 1200 long, each but the last at least 602 long and followed by one that starts exactly 200 before its end; each but the last ends behind the last break of its second half, or without one after 1200 characters |
| LongText.StitchingGivesTheText | document-parser/app/parser.py:375-388 | dropping each window's overlap and concatenating gives the text back |
| LongText.WindowCount | document-parser/app/parser.py:375-388 | at most 1 + ceil((n - 1200) / 402) windows for n > 1200 characters |
| LongText.EveryInkInSomePart | document-parser/app/parser.py:381-384 | every character that is not whitespace lies in a window whose part keeps all of the window's such characters |
| LongText.PartsAreShort | document-parser/app/parser.py:376-384 | parts are not empty and at most 1200 long |
| TableParts.TakeRows | document-parser/app/parser.py:356-363 | the inner loop takes as many rows as fit, at least one and at most 40 |
| TableParts.MarkdownTableParts | document-parser/app/parser.py:347-369 | a table of at most two lines stays whole; any other is partitioned by rows |
| TableParts.PartsHoldAllRows | document-parser/app/parser.py:353-368 | the parts' rows concatenate to the table's rows, and each part repeats the header |
| TableParts.RangesAreContiguous | document-parser/app/parser.py:365-367 | row ranges run without gap from 2 to rows + 1 |
| TableParts.PartitionIsUnique | document-parser/app/parser.py:355-368 | no other partition has parts that fit and could not have taken the next row |
| TableParts.TableLinesKeepInk | document-parser/app/parser.py:348 | splitting and stripping lines loses no character but whitespace |
| TableParts.TableLinesAreLines | document-parser/app/parser.py:348 | the lines of a table hold no line break, are not empty, and do not end with whitespace |
| TableParts.LineRunsToBreak | document-parser/app/parser.py:348 | a line runs to the next line break, which is one character, or a carriage return and a line feed |
| DocumentChunks.AddingKeepsChunking | document-parser/app/parser.py:434-486 | starting a block where the last one had to end, or joining it, keeps a chunking |
| DocumentChunks.Chunker.ProcessItem | document-parser/app/parser.py:424-486 | one item updates headings, groups and slide titles as specified and adds exactly its own entry, if it has one |
| DocumentChunks.Chunks | document-parser/app/parser.py:392-491 | the blocks concatenate to all entries in order, lines of a block share page and section, a block of several lines is never over-long, no block could have gone on, and the chunks are the blocks rendered |
| DocumentChunks.BlockHasItsChunks | document-parser/app/parser.py:407-422 | the chunks of each block stand together, after those of the blocks before it |
| DocumentChunks.UncutTextIsInAChunk | document-parser/app/parser.py:407-422 | every text stands whole in a chunk of its page and section unless it stands alone and is over-long |
| DocumentChunks.CutTextIsInChunks | document-parser/app/parser.py:419-420 | only a single over-long text is cut, and each of its characters but whitespace is in a chunk of its page and section |
| ChunkLocations.EntriesAreLocated | document-parser/app/parser.py:407-422 | all entries are found in the chunks in order, each with its page, section and kind: a text whole, or cut with each character but whitespace in one of its chunks, a table as the parts of its own split with their rows |
| ChunkLocations.ItemsAreLocated | document-parser/app/parser.py:392-491 | every heading, table and non-blank text has its own entry, in item order, which says its text, page and section as read off the item list, and that entry is found in the chunks |
| ItemPlaces.PathIsStanding | document-parser/app/parser.py:439-446 | the section path holds exactly the headings in force, each behind fewer than its level of others: those that no later chapter and no later heading that goes up to their rank takes out |
| ItemPlaces.StandingIsRanked | document-parser/app/parser.py:443-446 | a heading of level L stands behind the first L - 1 headings in force, or behind all if they are fewer |
| ItemPlaces.TitlesAreLast | document-parser/app/parser.py:447-448 | the title of a slide is the last heading on its page |
| ItemPlaces.SectionIs | document-parser/app/parser.py:455-457 | the section of an item is the innermost named sheet around it, else its slide's title, else the headings in force, else nothing |
| ItemPlaces.EntrySays | document-parser/app/parser.py:439-486 | what an item adds: its text with the number signs of its level, or with the dash of a list item, or its table, with its page and section |
| DocumentChunks.StackIsEnclosing | document-parser/app/parser.py:424-434 | when an item is processed the group stack holds exactly the groups that enclose it |
| DocumentChunks.PlacedByEnclosing | document-parser/app/parser.py:401-405 | sheet and section of an item are read from the groups that enclose it |
| DocumentChunks.StackLevelsIncrease | document-parser/app/parser.py:425-434 | the levels of the stack strictly increase |
| DocumentChunks.SheetIsInnermost | document-parser/app/parser.py:401-405 | the sheet is the innermost enclosing named sheet group, and absent only when there is none |
| ParserFraming.ParserOutput.ProcessLine | src-tauri/src/document_parser.rs:302-345 | a line changes result, error and events, or fails, as the reference interpretation says |
| ParserFraming.ParserOutput.Push | src-tauri/src/document_parser.rs:269-288 | a push interprets the complete lines of what was pending and what came, and leaves the rest without a newline; over the cap it changes nothing |
| ParserFraming.ParserOutput.Finish | src-tauri/src/document_parser.rs:290-300 | a last line without a newline is interpreted too |
| ParserFraming.LinesConcat | src-tauri/src/document_parser.rs:283-286 | cutting a stream in two places gives the same lines and the same rest |
| ParserFraming.EarlyFailureIsFinal | src-tauri/src/document_parser.rs:283-286 | a failure in the lines read so far is the failure of the whole stream |
| ParserFraming.ReadStream | src-tauri/src/document_parser.rs:268-346 | for every fragmentation within the cap, result, error, events and first failure are those of the whole stream split on newlines; over the cap they are those of the complete lines in the pieces that fit, and without a failure there it is that the stream is too large |
| ParserFraming.ProgressLine | src-tauri/src/document_parser.rs:311-328 | progress is passed on if and only if its stage, percentage and message are within their limits |
| ParserFraming.ErrorLine | src-tauri/src/document_parser.rs:334-340 | an error is kept if and only if it is not blank and at most 4096 bytes long |
| ParserFraming.ResultLine | src-tauri/src/document_parser.rs:329-333 | a result is kept, and a second one fails |
| ParserFraming.LinesAreTheStream | src-tauri/src/document_parser.rs:283-286 | the lines joined by newlines are the stream, and hold no newline themselves |
| LatexScanner.IsUnescapedLatexDelimiter | src/components/MarkdownMessage.tsx:55-62 | true exactly at a backslash and the marker after an even number of backslashes |
| LatexScanner.SpansAreClosed | src/components/MarkdownMessage.tsx:90-107 | a rewritten span stands outside code, has unescaped delimiters, and ends at its first unescaped closer |
| LatexScanner.SegmentsCoverTheSource | src/components/MarkdownMessage.tsx:89-181 | the segments are the source cut into pieces, in order |
| LatexScanner.RewritingIsCopyingIff | src/components/MarkdownMessage.tsx:89-182 | the output is the source if and only if no segment is a span |
| LatexScanner.IdentityIff | src/components/MarkdownMessage.tsx:82-183 | a text is left as it is if and only if it holds no closed span; an unterminated opener and its tail are no span |
| LatexScanner.Step | src/components/MarkdownMessage.tsx:89-177 | every step advances the index and leads to the reference's next segment, written verbatim or as a rewritten span |
| LatexScanner.NormalizeLatexDelimiters | src/components/MarkdownMessage.tsx:82-183 | the four-mode scanner writes what looking ahead from each segment writes |
| LatexCode.SegmentsAreRead | src/components/MarkdownMessage.tsx:62-177 | in characters: a fenced block goes from its first line to the first later line of at most three spaces, at least as many of the same mark, and blanks, or to the end; inline code to the first later run of exactly as many backticks; a line behind a tab or four spaces is code; an opener elsewhere makes a span up to its first closer, and without one leaves the rest as it is; any other character stands for itself |
| LatexCode.FenceEndIs | src/components/MarkdownMessage.tsx:69-137 | where a fenced block ends, in characters |
| LatexCode.InlineCodeEndIs | src/components/MarkdownMessage.tsx:109-120 | where inline code ends, in characters |
| LatexCode.DisplayIsWritten | src/components/MarkdownMessage.tsx:93-99 | a display span is written between double dollar signs on lines of their own, without one line break at either end of its content |
| LatexTwice.NormalizingLeaves | src/components/MarkdownMessage.tsx:82-183 | the unescaped delimiters of the result are, in order, those of the source without the two of each rewritten span |
| LatexTwice.UnpairedIsIdempotent | src/components/MarkdownMessage.tsx:81-183 | if no opener that is left over comes before a left-over closer of its kind, a second pass changes nothing |
| LatexTwice.StartingOpenersAreIdempotent | src/components/MarkdownMessage.tsx:81-183 | if no unescaped opener stands in code, inside a span, or behind an opener without a closer, a second pass changes nothing |
| LatexTwice.NotIdempotent | src/components/MarkdownMessage.tsx:89-177 | a nested opener for which a second pass changes the text |
| LatexCodeFree.CodeFreeIdempotentIff | src/components/MarkdownMessage.tsx:81-183 | a text without backtick, tilde, tab and four spaces in a row is left alone by a second pass if and only if its first left-over opener has no left-over closer of its kind after it |
| LineBlocks.NextNonEmptyLines | src/components/MarkdownMessage.tsx:192-197 | the backward loop finds for each line the next one with text |
| LineBlocks.SplitLines | src/components/MarkdownMessage.tsx:198-234 | the line loop gives the non-blank blocks that looking ahead from each block's first line gives |
| LineBlocks.EndIsFirst | src/components/MarkdownMessage.tsx:218-231 | a block ends at the first line where it may |
| LineBlocks.BlockIsWhole | src/components/MarkdownMessage.tsx:203-218 | a block before the last that starts with fence and display math closed ends so too, also when it is read on its own |
| LineBlocks.FinishedBlocksStay | src/components/MarkdownMessage.tsx:185-235 | whatever lines follow, all blocks but the last stay as they are |
| BlockSplitter.SplitMarkdownBlocks | src/components/MarkdownMessage.tsx:186-235 | a text with a reference stays whole; any other is split into its non-blank blocks |
| BlockSplitter.BlocksHoldTheText | src/components/MarkdownMessage.tsx:186-235 | blocks and dropped whitespace concatenate to the text, and the blocks hold all its other characters |
| BlockSplitter.CutsAreSafe | src/components/MarkdownMessage.tsx:184-235 | every boundary in a text lies behind a blank line at which fence and display math are closed, and every piece but the last leaves them closed when it is rendered on its own |
| BlockSplitter.CompletedBlocksStay | src/components/MarkdownMessage.tsx:185-189 | while whole lines of a message stream in, all blocks but the last are kept, unless a reference makes it one block |
| BlockRules.FenceMoves | src/components/MarkdownMessage.tsx:206-214 | a line with at least three backticks or tildes opens a fence, or closes one of the same character that is not longer |
| BlockRules.MathMoves | src/components/MarkdownMessage.tsx:214-216 | a line with nothing but a math mark opens or closes display math outside fences |
| BlockRules.OthersStay | src/components/MarkdownMessage.tsx:203-216 | no other line opens or closes anything |
| BlockRules.ContinuesIff | src/components/MarkdownMessage.tsx:220-228 | a block goes on exactly from a list to an item or an indented line, and from a quote to a quote |
| ReadableText.TextBuilder.AppendNormalizedText | src-tauri/src/reading.rs:282-291 | the words of a text node join the open paragraph or start one |
| ReadableText.TextBuilder.AppendParagraphBreak | src-tauri/src/reading.rs:293-300 | trailing whitespace becomes one blank line, and an empty buffer stays empty |
| ReadableText.TextBuilder.CollectReadableText | src-tauri/src/reading.rs:233-255 | a node adds its words and breaks in document order, and nothing from head, script, style or svg |
| ReadableText.DraftedIsContinued | src-tauri/src/reading.rs:233-300 | the buffer's paragraphs are the non-empty runs of words between breaks |
| ReadableText.NormalizingDrafts | src-tauri/src/reading.rs:302-309 | normalizing the collected buffer drops only its final break |
| ReadableText.ChapterText | src-tauri/src/reading.rs:213-219 | a chapter is its paragraphs single-spaced and separated by one blank line |
| ReadableText.ChapterKeepsWords | src-tauri/src/reading.rs:213-309 | the words of the chapter are the words of its readable text nodes in document order |
| ReadableText.NormalizingKeepsWords | src-tauri/src/reading.rs:302-309 | normalizing any text keeps its words |
| ReadableText.BlockStandsAlone | src-tauri/src/reading.rs:240-279 | what stands in a block element shares no paragraph with what stands around it |
| ReadableText.InlineIsTransparent | src-tauri/src/reading.rs:233-255 | head, script, style and svg are not read, and every other element that is no block adds nothing to its content |
| Disk.Volume.Swap | src-tauri/src/skills.rs:428-439 | the disk only passes through the states before, between and after the two moves; it succeeds if and only if both moves and every removal do, fails with the new package in place if and only if only a removal fails, and leaves the destination empty if and only if the move in and the move back both fail |
| Disk.SwapNeverLoses | src-tauri/src/skills.rs:428-439 | in each of those states the destination holds all of the old or the new package, or the backup holds all of the old one, and no other directory is touched |
| Installation.Finish | src-tauri/src/pdf_models.rs:156-173 | swap and clean-up keep that in every state, whatever fails; what a caller finds at the destination and in the backup has the same exact conditions; after a single failure the package is still at its place |
| Installation.NewInPlaceHappens | src-tauri/src/pdf_models.rs:166-168 | a removal that fails gives a failed installation with the new package in place |
| Installation.NothingInPlaceHappens | src-tauri/src/pdf_models.rs:160-165 | a failing move in and a failing move back leave nothing in place |
| SkillIds.SkillId | src-tauri/src/skills.rs:107-129 | the loop with its dash flag computes the identifier |
| SkillIds.ValidateSkillId | src-tauri/src/skills.rs:95-105 | true exactly for 1 to 80 lower-case letters, digits and dashes |
| SkillIds.IdIsCanonical | src-tauri/src/skills.rs:107-129 | every identifier has at most 64 characters and only single inner dashes |
| SkillIds.IdIsValid | src-tauri/src/skills.rs:95-129 | no name makes an identifier that validation refuses or that starts with a dot |
| SkillIds.IdIsIdempotent | src-tauri/src/skills.rs:107-129 | the identifier of an identifier is itself |
| SkillIds.PushedKeepsLetters | src-tauri/src/skills.rs:110-118 | before the cut the identifier keeps all letters and digits of the name in order |
| SkillIds.PushIs | src-tauri/src/skills.rs:110-118 | a letter or digit is kept in lower case, separators inside become one dash, nothing else stays |
| SkillIds.IdIs | src-tauri/src/skills.rs:107-129 | a name without letters and digits gets twelve digits of its digest, any other as much of its slug as fits |
| SkillMetadata.WriteMetadata | src-tauri/src/skills.rs:356-377 | in every state the metadata file is the old or the new one, or it is absent and the old one is in the backup file; it succeeds if and only if all its operations do, and the file is missing if and only if the move in and the move back both fail; success leaves only the new one |
| SkillStore.ListInstalled | src-tauri/src/skills.rs:543-575 | every listed skill once, each in the directory of its identifier, which is the identifier of its name; it fails if and only if the metadata of some listed skill cannot be read |
| SkillStore.GetInstalled | src-tauri/src/skills.rs:568-579 | a skill is found if and only if its identifier is allowed and its metadata can be read and names it, and then its directory is a visible one |
| SkillStore.SetEnabled | src-tauri/src/skills.rs:581-589 | in every state the skill's files and its old or new metadata are there and the naming invariant holds; which operations fail decides whether it succeeds and whether the skill disappears from the list; success changes only switch and date |
| SkillStore.Uninstall | src-tauri/src/skills.rs:591-605 | the whole directory moves to the trash if and only if the skill is found and both operations succeed; else nothing changes |
| SkillStore.InstallOne | src-tauri/src/skills.rs:384-446 | in every state the skill's old or new package is whole and all other skills are untouched and named for themselves; which operations fail decides whether it succeeds, fails with the new package in place, or leaves nothing in place; a single failure never removes the skill; a skill of another name is never replaced; success installs exactly the copied files with metadata that keeps switch and first date |
| SkillStore.InstalledFiles | src-tauri/src/skills.rs:284-346 | the installed files are those of the source, as they are, without metadata files, and the new metadata |
| PackageManifest.ValidateManifest | src-tauri/src/pdf_models.rs:202-234 | accepts exactly manifests for this program and platform with safe distinct paths, whole hashes, positive sizes and a bounded total |
| PackageManifest.AcceptedIsSafe | src-tauri/src/pdf_models.rs:202-234 | in an accepted manifest parser, models and all files have safe paths, files distinct ones, hashes of 64 hexadecimal digits, positive sizes and a total of at most 5 GiB |
| PackageManifest.RefusedIff | src-tauri/src/pdf_models.rs:202-234 | a manifest is refused if and only if one of the listed conditions holds |
| PackageManifest.SameSize | src-tauri/src/pdf_models.rs:321-323 | a part of a set with as many elements is all of it |
| ModelPackage.ExactForAllBlocksIff | src-tauri/src/pdf_models.rs:306-316 | for all block sizes a file is written as long as listed if and only if the entry holds exactly as many bytes |
| ModelPackage.OvershootsByOne | src-tauri/src/pdf_models.rs:306-316 | a longer entry read in these blocks is written one byte longer than listed |
| ModelPackage.ReadFile | src-tauri/src/pdf_models.rs:304-319 | what is written is the beginning of the entry that the reading loop takes for these block sizes, at least as long as listed, with the listed digest |
| ModelPackage.CountingIsEnough | src-tauri/src/pdf_models.rs:321-323 | when as many files were seen as are expected the directory holds exactly the listed files and the manifest |
| ModelPackage.ExtractAndVerify | src-tauri/src/pdf_models.rs:236-325 | a successful extraction holds exactly the manifest's files with matching digests, each exactly as long as listed when no entry holds more bytes than it declares; it touches only its own directory, and the manifest never lists its own name; when no operation fails, every archive is extracted whose last manifest is valid and whose entries are the listed files, each once, with the listed length and digest |
| ModelPackage.InstallArchive | src-tauri/src/pdf_models.rs:124-176 | in every state the old package is whole at the destination or in the backup, or a new one that is complete and has its parser and models is at the destination, exact in size when no entry holds more bytes than it declares; the endings of the swap have their exact conditions; a single failure never leaves the destination empty; when no operation fails, every archive that unpacks to what its valid manifest lists, parser and model list among it, is installed |
| ModelPackage.LoadInstalledManifest | src-tauri/src/pdf_models.rs:186-199 | the installed package is loaded if and only if its manifest can be read, is not too long, decodes, and is valid |
| ModelPackage.NewLoadsIff | src-tauri/src/pdf_models.rs:186-281 | what an installation puts in place can be loaded if and only if its manifest, as it is written, is within the size limit |

## Left out

* Prompt wording, attachment and image rendering, and tool schemas: text plumbing without state. A stored part carries
  its rendered text, and a bad image attachment is a refusal.
* The rounding of `limit * threshold` in floating point: the product is taken over the reals.
* Token usage counters of a model call, and the notice sent when a model falls back: they do not influence the reply.
* The branch of `execute_tools_node` without an executor.
* Failures of `ws.send` other than by cancellation, reconnection, and the shutdown of the sidecar.
* Embedding requests, and the choice of summary and memory models after a run.
* The `format` field of chunk metadata, and the optional `header_rows` that goes with a sheet.
* The field checks on a parsed document result, JSON itself, and the process around the parser.
* Indices are positions in a sequence of characters; UTF-16 surrogates and UTF-8 boundaries are not modelled.
* Rendering of the blocks by React, and the choice of a chapter's title.
* `strip_markup`, the fallback for chapters that do not parse.
* `copy_skill_directory`'s limits on files and sizes and its walk over the source: a copy may stop at any file, and the
  source is taken as the files that the walk reaches.
* The order of `list_installed` by lower-cased name.
* Parsing of SKILL.md, the lock around the skill functions, and installation of several skills from one source.
* Uniqueness of UUIDs and time stamps: the names of staging, backup and trash directories are required to be new and
  hidden.
* Rewriting of backslashes in archive paths, and paths that differ as text but name the same file.
* Directories inside an archive, file permissions, and removal of a PDF package.
* AgentLoop.Agent.Run: does not model LangGraph's step limit, which ends a run with an error after so many rounds.
* LatexTwice.UnpairedIsIdempotent: one direction only for texts with code, as said above.
* Sidecar.Loop.OnRunCancel: does not model the nested awaits of library code, because a cancellation is taken at the
  await where the run itself stands.
