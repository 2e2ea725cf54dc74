# Verification of the agent's pipelines, protocol and formulas

A Dafny model of the dependency-free cores of the server, with proofs of what they promise.

- **The streaming output pipeline.** Text of the model arrives in chunks. A guard holds JSON regions and repairs the
  arithmetic in them (`JsonRepair`, `TextGuard`), a rewriter resolves citations (`CiteRefs`), and an assembler turns
  everything into a stream of events and stored blocks (`AssemblerState`, `Assembler`). `LineFeed` states once, for any
  consumer of lines, when cutting a text into chunks makes no difference; `GuardChunks` shows exactly when it makes none
  to the guard, `GuardRender` what the output is as a function of the whole text, and `BlockText` puts the stages
  together: the text of a stored block is a function of what the model wrote, not of how it was cut. `JsonDocument`,
  `GuardRegions` and `GuardObjects` say the same of documents, fenced blocks and bare objects as a model writes them:
  what is evaluated in them, and what is left alone. `TurnContent` is about the order, the kinds and the contents of what
  a turn stores, `TurnStats` about what is counted and matched on the way.
- **Transcripts.** `Transcript` says which transcripts a provider accepts; `History`, `Inbox`, `Budget` and `Continue`
  pair, trim, splice, bound and resume them, and `Turn` proves over all the model calls of a turn that every transcript
  sent is acceptable, grows at its end only and shows every steered message once.
- **One turn per session.** `TurnProtocol` is a transition system over the atomic steps of any number of requests, their
  turns, inboxes and the registry; its invariant holds in every reachable state, and `TurnProgress` bounds the steps that
  are left, so that every request can be finished. `TurnStops` is about requests to stop, `TurnOwners` about what a turn
  does for the request that owns it. `Inbox` and `Registry` are the objects.
- **The formulas of document checks.** `FormulaLexer`, `FormulaSyntax`, `FormulaParser` and `FormulaPrint` read and write
  formulas. `FormulaPieces` takes lexer and parser apart, so that `FormulaSource` and `FormulaAtoms` can say of formula
  texts what every spelling stands for and how texts that are put together are read. `FormulaValues`, `FormulaEval` and
  `FormulaLoops` evaluate formulas; `FormulaMeaning` says what each of them comes to, in terms of the numbers, days,
  answers and texts of its parts, and `FormulaLaws` what laws the operators obey. `FormulaKnowledge` proves that filling
  in missing data never changes a decided outcome, and `FormulaLimits` where that stops; `FormulaSearch` is about SAME and
  MATCH, and `FormulaGaps` about what they and lists make of missing values.
- **Text arithmetic.** `EditDistance`, `Numbers`, `Decimals` and `CacheKey`.

Objects that the program changes in place are classes whose methods are tied to functions of their old state; the laws
are proved about these functions. What the program takes from libraries is a parameter with the stated assumptions: the
arithmetic evaluator (its results are numbers in the grammar of section 6 of RFC 8259), Go's character classes, case
folding and number readers, JSON encoding, the calendar, the hash.

Where the code and its comments differ, the code is modelled:

- the guard's output does depend on chunks for lines that open a region behind blanks other than spaces and tabs
  (`GuardChunks.ChunkInvarianceExactly`);
- the first call of a turn may end on the assistant, when it follows up a message that was stored before the last reply
  (`Turn.CallEndsOnReply`, `Turn.FollowUpEndsOnReply`);
- once 500 rows of a session are stored, a turn does not load its own message (`History.NewRowsAreLoadedExactly`);
- the model is warned in the two calls before the last one, not three (`Budget.WarnedCalls`);
- an untrimmed history may begin with a reply (`History.BeginsWithUser`);
- a list whose items are unknown without a reason passes (`FormulaLimits.IllTypedComparisonPasses`);
- `SAME` and `MATCH` count the reasons given for missing values as if they were the values: a missing value is to make
  a check unknown, but a negated `MATCH` of missing values on both sides passes (`FormulaGaps.MissingFieldsPass`).

`dafny verify dfyconfig.toml` checks the whole project.

## Model

| member | source | states |
|---|---|---|
| `JsonRepair.SkipJSONString` | internal/agent/jsonrepair.go:88-99 | finds the end of a string literal: the position behind its closing quote, escapes skipped, or the end of the text when it is not closed |
| `JsonRepair.ScanExprValue` | internal/agent/jsonrepair.go:101-123 | finds the end of a value: every character before it may stand in an arithmetic expression, and when the scan succeeds what follows is a comma, a closing bracket or the end |
| `JsonRepair.RepairJSONExpressions` | internal/agent/jsonrepair.go:25-86 | the loop over the text, its container stack and its previous character gives the repaired text and the number of values rewritten; every round advances |
| `JsonRepair.PlainNumberChars` | internal/agent/jsonrepair.go:10-15 | a number in the grammar of section 6 of RFC 8259 is non-empty and made of characters that a value scan reads whole |
| `JsonRepair.PiecesOfRepaired` | internal/agent/jsonrepair.go:25-86 | reading the repaired text again cuts it into the same pieces, the rewritten values in place of the old ones |
| `JsonRepair.RepairIsIdempotent` | internal/agent/jsonrepair.go:25-86 | a second repair rewrites nothing and leaves the text as it is, for every evaluator whose results are plain numbers |
| `JsonRepair.NoFixesNoChange` | internal/agent/jsonrepair.go:20-25 | a count of zero means the text came back unchanged |
| `JsonRepair.RepairKeepsStructure` | internal/agent/jsonrepair.go:22-24 | the string literals and the structural characters outside them are the same before and after, in the same order |
| `JsonRepair.ExpressionIsReplaced` | internal/agent/jsonrepair.go:65-79 | where a value belongs, a balanced expression that denotes a number and is none yet is replaced by that number, and everything behind it goes on as after a number |
| `JsonRepair.MemberIsRepaired` | internal/agent/jsonrepair.go:17-20 | the arithmetic written as the value of a member of an object is evaluated, the rest of the object kept |
| `JsonDocument.DocumentIsRepaired` | internal/agent/jsonrepair.go:17-86 | in a document of objects, arrays, strings, words and calculations, nested to any depth and written with any blanks, exactly the calculations that stand as values, denote a number and are no plain number are replaced by that number; everything else, blanks included, stays as written |
| `TextGuard.StreamGuard.Feed` | internal/agent/textguard.go:43-55 | a chunk, cut at its line breaks, moves the guard and releases text as the specification says |
| `TextGuard.StreamGuard.Flush` | internal/agent/textguard.go:57-73 | what is still held is released: a held line as it stands, an unfinished region repaired |
| `TextGuard.StreamGuard.Consume` | internal/agent/textguard.go:75-123 | one segment of a line, in each of the three modes, held, released or passed |
| `TextGuard.StreamGuard.Start` | internal/agent/textguard.go:135-167 | a complete line outside a region: fence, bare JSON or prose |
| `TextGuard.StreamGuard.ScanRaw` | internal/agent/textguard.go:182-206 | the bracket depth and string state after a line, brackets in strings not counted |
| `TextGuard.StreamGuard.CloseRaw` | internal/agent/textguard.go:208-214 | a bare region is released repaired and its fixes are counted |
| `TextGuard.StreamGuard.CloseFenced` | internal/agent/textguard.go:216-231 | a fenced region is released between its fence lines, repaired only when its body begins like JSON |
| `GuardChunks.RejectionIsStable` | internal/agent/textguard.go:125-133 | a prefix that cannot open a region is not the beginning of one, whatever follows |
| `GuardChunks.RejectedLinesPass` | internal/agent/textguard.go:110-117 | when the beginning of a line was released early, the whole line would have been passed unchanged, unless it is indented in a surprising way |
| `GuardChunks.ConsumedInTwo` | internal/agent/textguard.go:75-123 | in every mode a segment may be consumed in two pieces with the same state and output |
| `GuardChunks.ChunkInvarianceExactly` | internal/agent/textguard.go:13-15 | output and state are the same for every cutting of every prefix of a text if and only if no line of it is held apart by its indentation: a line that opens a region after blanks other than spaces and tabs is the one exception to the promise |
| `GuardChunks.UnsafeTextSplits` | internal/agent/textguard.go:128-137 | for every text with such a line there are a prefix and a cutting whose result differs from the uncut one; the lemma below names such a text |
| `GuardChunks.NoBreakSpaceBeforeFence` | internal/agent/textguard.go:128-137 | there are such texts: a fence behind a no-break space |
| `GuardChunks.PlainTextsAreCutSafe` | internal/agent/textguard.go:13-15 | texts whose lines are indented with spaces and tabs only, or blank, are never such texts |
| `GuardRender.SegmentsCoverLines` | internal/agent/textguard.go:5-15 | prose lines and regions partition the text: nothing is lost, moved or added |
| `GuardRender.StreamedIsRendered` | internal/agent/textguard.go:44-231 | however a text is cut, feeds and flush together give its line-by-line rendering, prose as it stands and every region repaired, and count its fixes |
| `GuardRender.UntouchedTextsArrive` | internal/agent/textguard.go:5-15 | a text in which nothing is rewritten arrives character for character |
| `GuardRender.ReleasedRegionsAreSettled` | internal/agent/textguard.go:9-11 | in the output of every region nothing is left to evaluate, and its strings and structure are the model's |
| `GuardRender.GuardIsChunkInvariant` | internal/agent/textguard.go:13-15 | two cuttings of the same plainly indented text give the same output and the same count of fixes |
| `GuardRegions.JSONFenceIsRepaired` | internal/agent/textguard.go:145-161 | a fence with no word, or with json, jsonc or json5 in any case and with any blanks around, opens a region; a body that begins with a brace or bracket is repaired and any other stands, and the rest is rendered on its own |
| `GuardRegions.OpenFenceIsRepaired` | internal/agent/textguard.go:57-73 | so it is when the text ends before the closing fence |
| `GuardRegions.JSONFenceIsReceived` | internal/agent/textguard.go:13-15 | however such a text is cut, the client receives the fence, the repaired body, the closing fence and what it would receive for the rest alone, with as many fixes |
| `GuardRegions.OtherFenceIsPassed` | internal/agent/textguard.go:149-153 | a fence with any other word is passed as it stands, with its body, up to the next fence |
| `GuardRegions.ProseIsPassed` | internal/agent/textguard.go:165-180 | a line that begins neither with a fence nor like JSON is passed as it stands |
| `GuardObjects.ObjectIsRepaired` | internal/agent/textguard.go:154-206 | bare lines from a brace, or from a bracket that is followed by nothing, a brace, a bracket or a quote, to the line on which it is closed are one region and repaired, whatever their strings hold |
| `GuardObjects.ObjectIsReceived` | internal/agent/textguard.go:13-15 | however such a text is cut, the client receives the repaired region and what it would receive for the rest alone, with as many fixes |
| `CiteRefs.AutomatonIsGrammar` | internal/agent/citerefs.go:16-18 | the automaton finds exactly the texts of the citation pattern, and keeps alive exactly those of the tail pattern |
| `CiteRefs.HeldWhileOpen` | internal/agent/citerefs.go:17-18 | a text is held if and only if something can follow that makes it a citation |
| `CiteRefs.RewriteAtCut` | internal/agent/citerefs.go:21-33 | no citation begins before the cut and ends behind it: the part before the cut can be rewritten on its own |
| `CiteRefs.CitationIsRewritten` | internal/agent/citerefs.go:42-49 | a citation at the front of a text is replaced by one of the document its case ref stands for, or kept when the ref is not known |
| `CiteRefs.OtherTextIsCopied` | internal/agent/citerefs.go:42-49 | a text without citations is left as it is |
| `CiteRefs.KeyIsDigits` | internal/agent/citerefs.go:16-16 | the case ref of a citation is the letter d and all the digits behind it, up to the page or the colon |
| `CiteRefs.CaseRefIsResolved` | internal/agent/citerefs.go:42-49 | a citation written with any digits, with or without a page, becomes one of the document that its whole number stands for, and stays when that is not known; the rest is rewritten on its own |
| `CiteRefs.StreamedRefIsResolved` | internal/agent/citerefs.go:21-49 | so it is sent however the text is cut |
| `CiteRefs.StreamingIsRewriting` | internal/agent/citerefs.go:21-49 | however the text is cut, feeds and flush together send the rewriting of the whole text |
| `CiteRefs.NothingResolvableRemains` | internal/agent/citerefs.go:5-9 | with ids of hexadecimal digits and dashes, with at least one dash, no citation with a known case ref is left anywhere |
| `CiteRefs.Rewriter.Feed` | internal/agent/citerefs.go:21-33 | releases the rewriting of what lies before the leftmost open tail and holds the rest; without refs everything passes |
| `CiteRefs.Rewriter.Flush` | internal/agent/citerefs.go:35-40 | releases the rewriting of what was held |
| `EventStream.StreamIsFaithful` | internal/agent/assembler.go:79-315 | for every sequence of calls the events are well framed (indices 0, 1, 2, one block open at a time, deltas only for it, none of them empty), a client that reads them holds exactly the stored blocks that are no tool results, and the stored blocks are numbered 0, 1, 2 |
| `EventStream.EndedTurnsAreComplete` | internal/agent/assembler.go:121-210 | after a model call or the turn has ended no block is open, and the client has everything that is stored |
| `EventStream.FinishTellsWhatIsStored` | internal/agent/assembler.go:176-188 | the stop reason told to the client when a turn has finished is the one stored with it, although it is mapped twice |
| `EventStream.InterruptTellsWhatIsStored` | internal/agent/assembler.go:190-199 | an interrupted turn is told and stored as interrupted, never as a failure |
| `BlockText.SealGivesOutput` | internal/agent/assembler.go:286-296 | sealing a text block completes its text to the citation rewriting of everything the guard gave for its chunks |
| `BlockText.StoredTextsAreOutputs` | internal/agent/assembler.go:86-119 | for every sequence of calls the stored texts are, block by block, the guarded and rewritten content chunks of the model; a block ends where the model reasons, calls a tool or stops |
| `BlockText.OutputIsRendering` | internal/agent/assembler.go:91-94 | what the two stages send for the chunks of a block is the citation rewriting of the line-by-line rendering of the whole text, for every text that may be cut anywhere |
| `BlockText.ChunksDoNotMatter` | internal/agent/assembler.go:91-94 | two runs in which the model writes the same plainly indented text, cut differently, store the same texts |
| `BlockText.StoredTextsAreResolved` | internal/agent/assembler.go:257-272 | no stored text holds a citation whose case ref is known |
| `TurnContent.BlocksAreWritten` | internal/agent/assembler.go:78-174 | for every sequence of calls the stored blocks are what the model wrote and the tools returned, in order: neighbouring parts of one kind make one block, reasoning is kept word for word, and a tool call has the first id and name its parts give and all their arguments |
| `TurnContent.BlocksAreTold` | internal/agent/assembler.go:78-174 | and the client is told of every block once and in order, under the id and name its first part gives, and of every stored result as it is stored |
| `TurnContent.StoredCallsWait` | internal/agent/assembler.go:307-313 | every stored tool call can be taken by a start, in order and under its own id, name and arguments; anything else that can was made up for a start without a call |
| `TurnContent.StartTakesFirst` | internal/agent/assembler.go:317-330 | a start takes the first call of its name not yet started with the same arguments, and the first of the name where there is none |
| `TurnContent.EndTakesFirst` | internal/agent/assembler.go:332-339 | an end takes the first call of its name that has started and not ended |
| `TurnContent.FailureIsTheLast` | internal/agent/assembler.go:190-210 | a turn has failed if and only if it was reported as failed and not interrupted afterwards |
| `TurnContent.InputIsTheGreatest` | internal/agent/assembler.go:121-136 | the input tokens of a turn are the most that it began with or that one of its model calls reported |
| `TurnContent.FinishReasons` | internal/agent/assembler.go:414-430 | the reasons for which a model stops, in any case, and what is told and stored for them |
| `TurnStats.EveryCallCounts` | internal/agent/assembler.go:121-136 | every model call and every completion token of a run is counted once |
| `TurnStats.FixesAreCounted` | internal/agent/assembler.go:291-296 | the number of repaired values reported is that of the closed text blocks of the run |
| `TurnStats.ToolsAreMatched` | internal/agent/assembler.go:138-174 | for every sequence of calls a tool call is started at most once and ended at most once, after it was started; the start events name exactly the calls that have started, with their arguments, and every ended call has an end event that names it |
| `BlockOrder.SortedIsOrdered` | internal/agent/assembler.go:378-383 | the sort orders the blocks by index and keeps them all |
| `BlockOrder.SortBlocksByIdx` | internal/agent/assembler.go:378-387 | insertion sort in place, then renumbering |
| `BlockOrder.StoredAsRecorded` | internal/agent/assembler.go:350-356 | on the blocks of any run sorting and renumbering change nothing |
| `Assembler.OpenBlock.Feed` | internal/agent/assembler.go:91-94 | content goes through the guard and then through the citation rewriter of its block |
| `Assembler.OpenBlock.Drain` | internal/agent/assembler.go:291-296 | both stages release what they hold, the rewriter after the guard |
| `Assembler.Recorder.CloseBlock` | internal/agent/assembler.go:286-315 | a block is drained, sealed, stored and announced; a tool call becomes pending |
| `Assembler.Recorder.EnsureOpen` | internal/agent/assembler.go:264-274 | a block of the wanted type is open, a new one only when needed |
| `Assembler.Recorder.OnMessageStart` | internal/agent/assembler.go:71-76 | the message is announced with its input tokens |
| `Assembler.Recorder.OnModelChunk` | internal/agent/assembler.go:78-119 | reasoning, content and tool calls of a chunk, in this order |
| `Assembler.Recorder.OnModelCallDone` | internal/agent/assembler.go:121-136 | the call is counted, its block closed, its usage added up |
| `Assembler.Recorder.FindPending` | internal/agent/assembler.go:317-330 | the first call of the name not yet started with the same arguments, failing that the first of the name |
| `Assembler.Recorder.FindStarted` | internal/agent/assembler.go:332-339 | the first call of the name that has started and not ended |
| `Assembler.Recorder.OnToolStart` | internal/agent/assembler.go:138-151 | the matching call, or a new one, is marked as started and announced |
| `Assembler.Recorder.OnToolEnd` | internal/agent/assembler.go:153-174 | the result is stored in order and announced under the id of the matching call |
| `Assembler.Recorder.OnFinish` | internal/agent/assembler.go:176-188 | the open block is closed and the stop reason resolved |
| `Assembler.Recorder.OnInterrupt` | internal/agent/assembler.go:190-199 | the open block is closed and the failure cleared |
| `Assembler.Recorder.OnFail` | internal/agent/assembler.go:201-210 | the failure is recorded and the open block closed |
| `Assembler.Recorder.OnStop` | internal/agent/assembler.go:227-239 | the terminal events, an error or the message's end |
| `Assembler.Recorder.Result` | internal/agent/assembler.go:350-369 | the blocks in order, and the stop reason, tokens and model calls to store with them |
| `Transcript.WellFormedAppend` | internal/agent/history.go:32-35 | well-formed transcripts can be put behind one another |
| `Transcript.WellFormedSplit` | internal/agent/history.go:109-111 | a well-formed transcript may be cut in front of any message that is no tool message |
| `History.PairToolCalls` | internal/agent/history.go:80-107 | exactly the calls with a stored result and the results with a call are kept, the calls numbered afresh |
| `History.PairedIsGroup` | internal/agent/history.go:80-84 | what is kept is one assistant message with results for exactly its call ids; nothing is dropped if and only if calls and results name the same ids |
| `History.IndicesAreFresh` | internal/agent/history.go:92-98 | the kept calls are numbered from zero without gaps |
| `History.HistoryToMessages` | internal/agent/history.go:32-78 | every stored message is expanded, in order; empty assistant messages are skipped |
| `History.HistoryIsWellFormed` | internal/agent/history.go:32-35 | whatever is stored, also by turns that were cut off, the transcript is accepted by a provider |
| `History.HistoryKeepsTexts` | internal/agent/history.go:36-78 | the user's messages are sent as they are stored, and the replies hold all the text of the stored replies, in order |
| `History.RepliesKeepTools` | internal/agent/history.go:44-107 | a stored reply is sent with exactly the calls it stores a result for, in order and under their own ids, names and arguments, and behind them exactly the results of stored calls |
| `History.TrimHistory` | internal/agent/history.go:115-154 | the history is returned whole, or cut at the best start: the longest suffix that begins with a user message and fits the budget, or the last user message when none fits |
| `History.BestStartIsUnique` | internal/agent/history.go:129-153 | there is only one best start, so the trimmed history is determined |
| `History.TrimmedHistory` | internal/agent/history.go:109-114 | a trimmed history is well formed, begins with a user message and keeps the last one |
| `History.BeginsWithUser` | internal/agent/history.go:109-128 | the result begins with a user message if and only if it was trimmed or the history already did: the comment's "always" holds only then |
| `History.UntrimmedMayBeginWithReply` | internal/agent/history.go:126-128 | a history within the budget that begins with a reply is sent as it is |
| `History.NewRowsAreLoadedExactly` | internal/agent/agent.go:265-266 | a new row is loaded if and only if fewer than 500 rows were stored before it: the oldest 500 are loaded |
| `Inbox.Steerer.Push` | internal/agent/steer.go:49-61 | a message is queued and counted, or refused once the inbox is closed |
| `Inbox.Steerer.Close` | internal/agent/steer.go:70-78 | the inbox is closed and what was not delivered handed back; a second time nothing |
| `Inbox.Steerer.Apply` | internal/agent/steer.go:80-105 | everything queued is placed at the end of the transcript, and the transcript returned with every placed message spliced in |
| `Inbox.DeletingLateOnes` | internal/agent/steer.go:82-105 | deleting the spliced messages gives back the input |
| `Inbox.EveryLateOne` | internal/agent/steer.go:82-105 | every placed message occurs exactly once and in order if and only if none lies behind the end of the input |
| `Inbox.SplicedIsStable` | internal/agent/steer.go:40-47 | when the input grows at its end, what the model has been shown is a prefix of what it is shown next |
| `Inbox.SplicedIsWellFormed` | internal/agent/steer.go:40-43 | a splice between whole groups keeps a transcript acceptable to a provider |
| `Continue.GenerateResuming` | internal/agent/continue.go:50-71 | the buffered loop: the joined reply or the failure, and every transcript asked |
| `Continue.Forward` | internal/agent/continue.go:105-131 | a stream is copied until it ends or the consumer goes away, its text collected, its last finish reason and its tool calls noticed |
| `Continue.StreamResuming` | internal/agent/continue.go:73-103 | the streamed loop: everything the consumer took, the failure, and every transcript asked; nothing more is asked when the consumer goes away |
| `Continue.ConsumerSees` | internal/agent/continue.go:84-131 | a consumer sees the stream up to the first chunk that is refused: all of it, or a part, no error, and no call is made that would not have been made anyway |
| `Continue.BufferedAgreesWithStreamed` | internal/agent/continue.go:50-103 | against the same model, with errors and cancellation, both make the same calls with the same transcripts, fail together and give the same text and tool calls, and the same finish reason exactly when the buffered reply has one or was not resumed |
| `Continue.PartialOnlyAfterFiveCalls` | internal/agent/continue.go:61-63 | a turn that stays wanted hands on a cut-off reply only after the fifth call |
| `Continue.ResumedCallsAreWellFormed` | internal/agent/continue.go:42-48 | a call is made at most five times, always with an extension of the transcript, and every one is well formed when the first is |
| `Continue.FirstIsAskedFirst` | internal/agent/continue.go:42-48 | the first call asks the transcript itself, every later one ends with the partial reply and the request to carry on |
| `Continue.ResumedExactly` | internal/agent/continue.go:22-71 | a call is followed by another one if and only if there have been fewer than five, its reply ended whole, without a tool call and with length or max_tokens in any case as its last finish reason, and the turn is still wanted; what is asked then is the transcript with all the text so far and the request to carry on |
| `Budget.WarnedCalls` | internal/agent/budget.go:17-18 | exactly the two calls before the last permitted one are warned, in budgets of at least five; the comment on the constant says three |
| `Budget.CallsAreTold` | internal/agent/budget.go:65-76 | the last permitted call runs without tools and is told so, and in budgets of at least five the two calls before it are told that two and three calls remain, themselves included |
| `Budget.PickedIsWellFormed` | internal/agent/budget.go:57-77 | a notice leaves the transcript well formed, an extension of what is shown |
| `Budget.BudgetModel.Pick` | internal/agent/budget.go:57-77 | the call is counted, the inbox read, and the model and transcript chosen |
| `Budget.BudgetModel.WithTools` | internal/agent/budget.go:48-54 | a copy with tools counts against the same budget and reads the same inbox; none when the tools cannot be bound |
| `Turn.GeneratedCallsNothing` | internal/agent/budget.go:36-37 | a model without tools replies without calls, however often its reply is resumed |
| `Turn.TurnEndsWithinBudget` | internal/agent/budget.go:24-28 | a turn makes at most its budget of model calls, below the graph's own step limit |
| `Turn.GrownIsReady` | internal/agent/budget.go:59-63 | the transcript grows by a whole group, so the next call is again a safe point to splice |
| `Turn.EveryCallIsWellFormed` | internal/agent/budget.go:57-77 | every transcript of every model call of a turn, with spliced messages, notices and resumed replies, is well formed, from every well-formed start |
| `Turn.EveryMessageIsShownOnce` | internal/agent/steer.go:82-105 | every call shows its own transcript and, exactly once and in the order of arrival, all the messages that came before it |
| `Turn.ShownOnlyGrows` | internal/agent/steer.go:40-47 | what the model is shown in one call of a turn is a prefix of what it is shown in every later one |
| `Turn.HistoryIsReady` | internal/agent/agent.go:265-274 | whatever is stored, and whichever row is the last, a turn can start from the prompt and the trimmed history |
| `Turn.CallEndsOnReply` | internal/agent/budget.go:57-77 | a call ends on the assistant if and only if it is the first of a turn whose start ends so, nothing arrived before it and its budget leaves more than one call: the comment's "always ends on a user or tool message" fails exactly then |
| `Turn.FollowUpEndsOnReply` | internal/agent/agent.go:189-209 | so ends the first call of a turn that follows up a message stored before the reply it came too late for |
| `TurnProtocol.StepKeeps` | internal/agent/agent.go:122-209 | every atomic step of every request keeps the invariant of the registry, the inboxes, the store of messages and replies, and the turns |
| `TurnProtocol.EveryReachableStateIsSound` | internal/agent/agent.go:114-161 | the invariant holds in every state that any interleaving reaches |
| `TurnProtocol.OneTurnPerSession` | internal/agent/steer.go:126-147 | at most one request runs a turn of a session |
| `TurnProtocol.NoMessageIsStranded` | internal/agent/agent.go:129-135 | the waiters of a turn are woken at most once and only after the registry has forgotten it; its inbox is then closed and empty, and what it accepted is divided, in order, between what the model was shown and what is handed to resume |
| `TurnProtocol.SteeredIsAccepted` | internal/agent/agent.go:152-154 | a steered request has its message, under its stored row, among those its turn accepted |
| `TurnProtocol.StoredOnce` | internal/agent/agent.go:145-159 | looping never stores a user message again, a follow-up stores none, and no request waits twice for the same turn |
| `TurnProtocol.LateMessagesAreFollowedUp` | internal/agent/agent.go:189-209 | when messages came too late, the last that was accepted has a follow-up request of its own |
| `TurnProtocol.FollowUpsComeLater` | internal/agent/agent.go:189-209 | a follow-up runs, or is steered into, a later turn of the session |
| `TurnProtocol.StoredBeforeLaterTurns` | internal/agent/agent.go:265-266 | everything a turn accepted, late messages included, and its reply are stored, with their texts, before any later turn of the session loads its history; what that load takes of the stored rows is History.NewRowsAreLoadedExactly and History.TrimmedHistory |
| `TurnProtocol.LateMessagesPrecedeReply` | internal/agent/agent.go:396-440 | a turn stores at most one reply, and unless its setup failed every message that came too late stands in front of it |
| `TurnStops.StopInterrupts` | internal/agent/agent.go:117-143 | a stop request is never steered into the turn it meets; every turn it waits for or has waited for is interrupted, and its message is stored by a turn of its own only |
| `TurnStops.InterruptedByStop` | internal/agent/agent.go:137-143 | a turn is interrupted if and only if a stop request has waited for it |
| `TurnOwners.OwnMessageIsLoaded` | internal/agent/agent.go:211-274 | a turn that has loaded its history, as every turn that calls the model has, has its own message stored before and loaded with it |
| `TurnOwners.RunsAreTurns` | internal/agent/agent.go:127-135 | a request that has run had a turn of its own in its session, which is over |
| `TurnProtocol.SomebodyCanMove` | internal/agent/agent.go:127-171 | there is no deadlock: an unfinished request can take a step, or waits for a turn whose owner can, and neither has to fail, give up or call the model again for it |
| `TurnProgress.StepsUseUp` | internal/agent/agent.go:127-209 | every step of every request but an arrival and a model call takes from a bound on the steps that are left, also when requests wait again, are steered, give up or start follow-ups, and a model call adds nothing to it |
| `TurnProgress.RunsEnd` | internal/agent/agent.go:127-209 | no run goes on for ever: without new requests, and apart from model calls, a run takes at most as many steps as this bound, in whatever order and whatever fails |
| `TurnProgress.EveryoneCanFinish` | internal/agent/agent.go:114-161 | from every reachable state some run finishes every request, none of them by giving up, without a failure or a further model call |
| `Registry.RunRegistry.Acquire` | internal/agent/steer.go:136-147 | a new turn is registered, or the running one returned |
| `Registry.RunRegistry.Release` | internal/agent/steer.go:149-157 | the turn is forgotten, if it is the registered one, and its channel closed; that no channel is closed twice is for the callers to keep, and is proved of them in TurnProtocol.NoMessageIsStranded |
| `Registry.ActiveRun.SetAside` | internal/agent/agent.go:396-399 | the inbox is closed and what it still holds is set aside behind what was |
| `FormulaSyntax.Parsed` | internal/checkexpr/parse.go:137-248 | a successful parse moves the cursor on and never past the end mark, on every level of precedence |
| `FormulaLexer.Lex` | internal/checkexpr/parse.go:35-101 | the loop over the characters gives the tokens of the text and the end mark, or fails |
| `FormulaLexer.LexedIsLexed` | internal/checkexpr/parse.go:35-101 | the tokens handed to the parser end with the end mark and hold no other |
| `FormulaLexer.TextsThatAreRead` | internal/checkexpr/parse.go:50-63 | a string literal is read from some text if and only if it does not hold both kinds of English quote, and then it is read as the printer spells it |
| `FormulaLexer.TextRoundTrip` | internal/checkexpr/parse.go:35-135 | a formula written as text is read back as the same formula, with any blanks between its tokens and none where the tokens stand apart by themselves |
| `FormulaLexer.SourceRoundTrip` | internal/checkexpr/parse.go:116-135 | so it is with blanks around it, and with an equals sign in front |
| `FormulaPrint.ReadsBack` | internal/checkexpr/parse.go:137-313 | a tree printed for any level of precedence is read back there, and the cursor stands right behind it |
| `FormulaPrint.ParseInvertsPrint` | internal/checkexpr/parse.go:117-135 | printing a formula with only the parentheses that precedence and grouping to the left require, and parsing it, gives the same formula, for every sound choice of spellings |
| `FormulaPrint.PrintIsInjective` | internal/checkexpr/parse.go:117-135 | two formulas that print alike are the same formula |
| `FormulaPrint.PlainStyleIsSound` | internal/checkexpr/parse.go:137-313 | the symbols, TRUE and FALSE are such a choice |
| `FormulaPieces.TokensInTwo` | internal/checkexpr/parse.go:35-101 | the tokens of a text are those of its front and those of the rest, where no token runs across |
| `FormulaPieces.ReadWithin` | internal/checkexpr/parse.go:137-313 | what is read from tokens alone is read in the same way, on every level, where these tokens or other spellings of them stand in a longer formula that does not carry it on |
| `FormulaSource.AroundAFormula` | internal/checkexpr/parse.go:116-117 | blanks around a formula and an equals sign in front of it make no difference |
| `FormulaSource.SpellingsAreExchanged` | internal/checkexpr/parse.go:79-96 | anywhere in a formula text the signs of an operator can be exchanged without a difference (= and ==; !=, <> and the sign for unequal; <= and >= and their single signs), and whatever is read with || && ! is read the same with the words of OR, AND and NOT, in both languages and any case |
| `FormulaSource.OperatorIsRead` | internal/checkexpr/parse.go:137-248 | every spelling of every operator, between formulas that bind more tightly, or as tightly on the left of one that chains, is read as that operator with its sides in order |
| `FormulaSource.OperatorBetweenParentheses` | internal/checkexpr/parse.go:137-265 | so it is between any two formulas in parentheses |
| `FormulaSource.ParenthesesAreRead` | internal/checkexpr/parse.go:258-266 | a formula in parentheses is the same formula |
| `FormulaSource.TwoOperatorsAreRead` | internal/checkexpr/parse.go:137-236 | of two operators between three formulas the one that binds more tightly (* and /, then + and -, then comparisons, then AND, then OR) takes the middle, of two alike the left one does, and two comparisons are no formula |
| `FormulaSource.PrefixIsRead` | internal/checkexpr/parse.go:169-179 | every spelling of NOT, and the minus sign, in front of a formula that binds as tightly |
| `FormulaSource.NegationBinds` | internal/checkexpr/parse.go:169-179 | NOT takes a whole comparison or calculation, but no AND and no OR |
| `FormulaSource.MinusBinds` | internal/checkexpr/parse.go:238-248 | the minus sign takes the one formula behind it, before any operator |
| `FormulaAtoms.NumberIsRead` | internal/checkexpr/parse.go:44-49 | a number is what the library reads from all its digits and points |
| `FormulaAtoms.TextIsRead` | internal/checkexpr/parse.go:50-63 | a text between quotes of any of the four kinds, of which an English double quote ends the typographic ones too |
| `FormulaAtoms.OpenTextIsRefused` | internal/checkexpr/parse.go:59-61 | a text that is not closed makes no formula |
| `FormulaAtoms.StrayCharacterIsRefused` | internal/checkexpr/parse.go:94-96 | neither does a character outside the language |
| `FormulaAtoms.WordIsRead` | internal/checkexpr/parse.go:270-276 | a word alone is yes, no or a name, in both languages and any case; NOT alone is no formula |
| `FormulaAtoms.FieldIsRead` | internal/checkexpr/parse.go:299-307 | a name, a point and a key that is a word or a number are a field |
| `FormulaAtoms.CallIsRead` | internal/checkexpr/parse.go:277-298 | a name with any formulas between parentheses and commas behind it, or none, is the call of that function, in upper case, with these arguments in order |
| `FormulaParser.Parser.Formula` | internal/checkexpr/parse.go:127-134 | the parser object reads the formula the specification reads, and nothing may be left over |
| `FormulaParser.ParseSource` | internal/checkexpr/parse.go:116-135 | a text is trimmed, its equals sign dropped, and read; an empty one is refused |
| `FormulaParser.Parser.Or` | internal/checkexpr/parse.go:137-151 | the loop of OR |
| `FormulaParser.Parser.And` | internal/checkexpr/parse.go:153-167 | the loop of AND |
| `FormulaParser.Parser.Negation` | internal/checkexpr/parse.go:169-179 | NOT |
| `FormulaParser.Parser.Compared` | internal/checkexpr/parse.go:181-204 | one comparison, which does not chain |
| `FormulaParser.Parser.Sum` | internal/checkexpr/parse.go:206-220 | the loop of + and - |
| `FormulaParser.Parser.Product` | internal/checkexpr/parse.go:222-236 | the loop of * and / |
| `FormulaParser.Parser.Unary` | internal/checkexpr/parse.go:238-248 | the sign |
| `FormulaParser.Parser.Primary` | internal/checkexpr/parse.go:250-269 | literals and parentheses |
| `FormulaParser.Parser.Name` | internal/checkexpr/parse.go:270-308 | names, fields and calls |
| `FormulaEval.CheckedNeverStuck` | internal/checkexpr/eval.go:128-170 | a formula that Check accepts never calls a missing function and never reads a missing argument, in any function, whatever the documents hold |
| `FormulaValues.ListPasses` | internal/checkexpr/eval.go:227-252 | a list passes if and only if it is not empty and every item passes or is unknown without a reason |
| `FormulaValues.LeastIsLeast` | internal/checkexpr/eval.go:662-662 | MIN is the least of the amounts |
| `FormulaValues.GreatestIsGreatest` | internal/checkexpr/eval.go:663-663 | MAX is the greatest of the amounts |
| `FormulaLaws.NegatedTwice` | internal/checkexpr/eval.go:472-485 | negating a value twice, item by item, gives it back |
| `FormulaLaws.OrderDoesNotMatter` | internal/checkexpr/eval.go:233-252 | the order of the items does not matter to the verdict of a list: the same outcome, and the same data asked for |
| `FormulaLaws.ListIsConjunction` | internal/checkexpr/eval.go:227-252 | a list check has the outcome of the AND of its items if and only if an item fails, or one gives a reason why it is missing, or all are answered |
| `FormulaLaws.ComparisonsAreAnOrder` | internal/checkexpr/eval.go:528-553 | of two amounts or days exactly one of smaller, equal and greater holds, the other comparisons are negations, and turning the operands round turns the order |
| `FormulaLaws.NegatedComparison` | internal/checkexpr/eval.go:487-553 | the negation of a comparison is the opposite comparison, for all values, item by item in lists at any depth |
| `FormulaLaws.BetweenIsBothBounds` | internal/checkexpr/eval.go:707-728 | BETWEEN comes to the AND of its two comparisons, for every single value if and only if not: one comparison fails while the other is open; and for every list of single values if and only if an item is known to lie outside, or no item fails by halves and BETWEEN gives a reason or hides none |
| `FormulaLaws.SumOfSums` | internal/checkexpr/eval.go:487-508 | summing the sums of two lists is adding their sums |
| `FormulaLaws.SumOfMultiples` | internal/checkexpr/eval.go:487-508 | a factor may be taken out of a sum |
| `FormulaLaws.AverageTimesCount` | internal/checkexpr/eval.go:651-679 | the average times the count is the sum |
| `FormulaLaws.LeastOfNegated` | internal/checkexpr/eval.go:662-663 | the least of the negated amounts is the negated greatest one |
| `FormulaLaws.AverageIsBetween` | internal/checkexpr/eval.go:664-670 | the average lies between the least and the greatest amount |
| `FormulaLaws.ListsAreOpened` | internal/checkexpr/eval.go:605-616 | it makes no difference whether values are given one by one or as a list |
| `FormulaLaws.SomethingIsKnown` | internal/checkexpr/eval.go:671-687 | EXISTS holds if and only if an item is known, and COUNT is at most the number of items |
| `FormulaLaws.ChoiceIsLogic` | internal/checkexpr/eval.go:775-787 | IF(c, x, y) has the outcome of (c AND x) OR (NOT c AND y) if and only if not: the condition is open and both alternatives fail |
| `FormulaLaws.ImplicationIsLogic` | internal/checkexpr/eval.go:775-787 | IF(c, x) has the outcome of NOT c OR x if and only if not: the condition is open and x holds |
| `FormulaMeaning.ArithmeticOfTrees` | internal/checkexpr/eval.go:384-393 | a formula whose sides are known amounts comes to their sum, their difference in order, their product and their quotient in order; dividing by zero asks for data |
| `FormulaMeaning.NegationOfTree` | internal/checkexpr/eval.go:362-367 | the minus sign gives the opposite amount |
| `FormulaMeaning.AmountsOfTrees` | internal/checkexpr/eval.go:394-403 | each of the six comparisons of two amounts passes if and only if the left is so related to the right, up to the tolerance |
| `FormulaMeaning.DaysOfTrees` | internal/checkexpr/eval.go:394-403 | and of two days |
| `FormulaMeaning.TextsOfTrees` | internal/checkexpr/eval.go:528-586 | texts are equal by their keys, and have no order |
| `FormulaMeaning.AnswersOfTrees` | internal/checkexpr/eval.go:374-383 | AND and OR of answered sides have their truth tables |
| `FormulaMeaning.AnswerOfTree` | internal/checkexpr/eval.go:368-373 | NOT turns an answer |
| `FormulaMeaning.OneSideDecides` | internal/checkexpr/eval.go:418-470 | one failing side fails an AND and one passing side passes an OR, whatever the other is |
| `FormulaMeaning.ListsOfTrees` | internal/checkexpr/eval.go:487-518 | between lists, or a list and a single value, an operator works item by item, in order |
| `FormulaMeaning.LengthsMustAgree` | internal/checkexpr/eval.go:487-518 | lists of different lengths ask for data |
| `FormulaMeaning.LiteralsOfTrees` | internal/checkexpr/eval.go:328-336 | numbers, answers and texts stand for themselves, and a text that reads as a day for that day |
| `FormulaMeaning.FieldsOfTrees` | internal/checkexpr/eval.go:272-312 | a field is read by its kind: an empty one, and a number or day that cannot be read, asks for data; a yes/no text that cannot be read stays a text |
| `FormulaMeaning.GroupsOfTrees` | internal/checkexpr/eval.go:356-361 | the field of a type is the list of that field in all its documents, in order |
| `FormulaMeaning.NoDocumentAsks` | internal/checkexpr/eval.go:353-355 | a field of a document that is not there asks for data |
| `FormulaMeaning.LabelsOfTrees` | internal/checkexpr/eval.go:337-346 | a name alone is the label of its document, or those of all documents of the type |
| `FormulaMeaning.SumOfTrees` | internal/checkexpr/eval.go:651-661 | SUM of known amounts is nothing for none, and one more amount adds itself |
| `FormulaMeaning.EndsOfTrees` | internal/checkexpr/eval.go:662-663 | MIN and MAX are amounts of the arguments that none is below, or above |
| `FormulaMeaning.AverageOfTrees` | internal/checkexpr/eval.go:664-670 | AVERAGE is the sum shared equally |
| `FormulaMeaning.CountOfTrees` | internal/checkexpr/eval.go:671-679 | one more known value counts one more, a missing one nothing |
| `FormulaMeaning.ExistsOfTrees` | internal/checkexpr/eval.go:680-687 | EXISTS is yes for a value and no for a gap |
| `FormulaMeaning.ChoiceOfTrees` | internal/checkexpr/eval.go:775-787 | IF gives its second argument for yes and its third for no; without a third, no passes |
| `FormulaMeaning.LogicOfTrees` | internal/checkexpr/eval.go:788-801 | AND and OR of any number of answers |
| `FormulaMeaning.RangeOfTrees` | internal/checkexpr/eval.go:707-728 | BETWEEN passes if and only if the amount is at least the lower and at most the upper bound, up to the tolerance |
| `FormulaMeaning.SizeOfTrees` | internal/checkexpr/eval.go:688-694 | ABS is the amount without its sign |
| `FormulaMeaning.RoundingOfTrees` | internal/checkexpr/eval.go:695-706 | ROUND rounds to as many digits as its second argument says, to none without one |
| `FormulaMeaning.DatesOfTrees` | internal/checkexpr/eval.go:802-834 | DATE_ADD moves a day by the whole part of the amount in the given unit; TODAY is the day of the check |
| `FormulaMeaning.SameOfTrees` | internal/checkexpr/eval.go:729-764 | SAME of two or more known values passes if and only if they have one key |
| `FormulaMeaning.MatchOfTrees` | internal/checkexpr/eval.go:765-774 | MATCH asks whether its two values fit in the given mode, or nearly; CONTAINS whether the second is part of the first |
| `FormulaKnowledge.VerdictStays` | internal/checkexpr/eval.go:218-257 | a verdict that does not ask for data stays when data is added |
| `FormulaKnowledge.LogicGrows` | internal/checkexpr/eval.go:418-470 | AND and OR respect what is known |
| `FormulaKnowledge.BroadcastGrows` | internal/checkexpr/eval.go:487-518 | item by item or not, an operator respects what is known |
| `FormulaKnowledge.AggregatedGrows` | internal/checkexpr/eval.go:627-670 | an aggregate is computed only when nothing it reads can change any more |
| `FormulaKnowledge.ChosenGrows` | internal/checkexpr/eval.go:775-787 | IF between scalars respects what is known |
| `FormulaKnowledge.RangeGrows` | internal/checkexpr/eval.go:707-728 | BETWEEN respects what is known |
| `FormulaKnowledge.AddedGrows` | internal/checkexpr/eval.go:802-830 | DATE_ADD respects what is known |
| `FormulaKnowledge.KnowledgeGrows` | internal/checkexpr/eval.go:326-416 | knowledge monotonicity on the fragment: when empty fields are filled in, a value stays or becomes known |
| `FormulaKnowledge.DecidedStaysDecided` | internal/checkexpr/parse.go:8-10 | a check of the fragment that passes or fails keeps doing so when empty fields are filled in with texts readable at their kind |
| `FormulaLimits.CountingIsNotMonotone` | internal/checkexpr/eval.go:671-679 | outside the fragment this fails, for every filling of an empty field: COUNT(a.x) = 0 passes, then fails |
| `FormulaLimits.ExistingIsNotMonotone` | internal/checkexpr/eval.go:680-687 | EXISTS(a.x) fails, then passes |
| `FormulaLimits.SamenessIsNotMonotone` | internal/checkexpr/eval.go:729-764 | SAME(n, n, a.x) passes, then fails, when the field is filled in with something else |
| `FormulaLimits.MatchingIsNotMonotone` | internal/checkexpr/eval.go:765-771 | MATCH(a.x, a.x) fails, then passes: one pair gives two reasons |
| `FormulaLimits.ContainingIsNotMonotone` | internal/checkexpr/eval.go:772-774 | so does CONTAINS(a.x, a.x) |
| `FormulaLimits.RoundingIsNotMonotone` | internal/checkexpr/eval.go:695-706 | ROUND(n, a.x) = 0 passes, then fails, for a number that rounds to nothing without digits: a missing number of digits counts as none |
| `FormulaLimits.ChoosingListsIsNotMonotone` | internal/checkexpr/eval.go:775-787 | and for IF between lists: SUM(e.y + IF(a.x, l.z)) = 0 passes, and is undecided once its condition is filled in with yes, for every empty group e and every other group l |
| `FormulaLimits.IllTypedComparisonPasses` | internal/checkexpr/eval.go:227-252 | a checked comparison of a group of known fields with something that is no value passes: its items are unknown without a reason, and such items do not keep a list from passing |
| `FormulaLoops.ComputeVerdict` | internal/checkexpr/eval.go:218-257 | the loop of verdict, with its early exit and its list of what is missing, gives the verdict |
| `FormulaLoops.Dedupe` | internal/checkexpr/eval.go:259-269 | every reason is kept once, in the order in which it comes first |
| `FormulaLoops.Flatten` | internal/checkexpr/eval.go:605-616 | lists among the arguments are opened, at any depth |
| `FormulaLoops.ComputeAggregate` | internal/checkexpr/eval.go:627-670 | SUM, MIN, MAX and AVERAGE over everything the arguments hold, MIN and MAX from the ends of the sorted numbers |
| `FormulaLoops.CountKnown` | internal/checkexpr/eval.go:671-679 | COUNT counts what is not unknown |
| `FormulaLoops.CombineAll` | internal/checkexpr/eval.go:788-801 | AND and OR of any number of conditions |
| `FormulaSearch.Same` | internal/checkexpr/eval.go:729-764 | SAME, with its map and its order of keys: open when fewer than two items are left after taking off the reasons, else whether one key is left |
| `FormulaSearch.SameExactly` | internal/checkexpr/eval.go:729-764 | SAME answers what is meant (two known values are needed, all known ones must be alike) if and only if counting reasons instead of gaps makes no difference to whether two values are known |
| `FormulaSearch.SameWithPlainGaps` | internal/checkexpr/eval.go:745-749 | which is so when every gap gives exactly one reason |
| `FormulaSearch.MatchAny` | internal/checkexpr/eval.go:848-869 | MATCH and CONTAINS: a pair of known items that fits is found, else the reasons of all pairs are counted against the number of pairs |
| `FormulaSearch.MatchExactly` | internal/checkexpr/eval.go:848-869 | MATCH answers what is meant if and only if a pair fits, or a side is empty, or the reasons are as many as the pairs exactly when one side is missing altogether |
| `FormulaSearch.MatchWithPlainGaps` | internal/checkexpr/eval.go:848-869 | with one reason for every missing value: if and only if a pair fits, or a side is empty, or the one side is missing and the other not at all, or neither is missing altogether and the counts do not coincide by chance |
| `FormulaSearch.NothingDoesNotMatchNothing` | internal/checkexpr/eval.go:865-868 | when everything is missing on both sides MATCH answers no, not that data is missing |
| `FormulaGaps.MissingFieldsPass` | internal/checkexpr/eval.go:765-774 | NOT MATCH(a.x, b.y) passes when nothing of either field is there, in all documents of all groups |
| `FormulaGaps.LonelyValuePasses` | internal/checkexpr/eval.go:745-752 | SAME(a.x, 1 AND 2) passes with a single known value, because the ill-typed AND is unknown without a reason |
| `FormulaGaps.TwoReasonsHideTwoValues` | internal/checkexpr/eval.go:745-749 | SAME(a.x + a.y, b.z, c.w) is open in every scope in which a.x and a.y are empty and b.z and c.w are there and alike, although the two alone are the same: a gap with two reasons counts for two |
| `FormulaGaps.WellTypedExplains` | internal/checkexpr/eval.go:326-416 | a checked formula in which no condition and no side of AND and OR is ill-typed gives no value that is unknown without a reason |
| `FormulaGaps.ListPassesWithItems` | internal/checkexpr/eval.go:227-252 | such a formula, when it gives a list, passes if and only if every item does |
| `EditDistance.Levenshtein` | docpipe/textutil/textutil.go:47-68 | two rows, filled and swapped, with the longer text first, compute the distance |
| `EditDistance.DistanceIsFewestEdits` | docpipe/textutil/textutil.go:47-68 | the distance is the least number of insertions, deletions and replacements that make the one text into the other |
| `EditDistance.Symmetric` | docpipe/textutil/textutil.go:48-50 | the distance does not depend on the order of the texts, so they may be swapped |
| `EditDistance.ZeroIffEqual` | docpipe/textutil/textutil.go:47-68 | it is zero for equal texts only |
| `EditDistance.Triangle` | docpipe/textutil/textutil.go:47-68 | it obeys the triangle inequality |
| `EditDistance.SimilarityIsAShare` | docpipe/textutil/textutil.go:37-45 | the similarity lies between 0 and 1, is 1 for equal texts only, and is symmetric |
| `EditDistance.SimilarityByEdits` | docpipe/textutil/textutil.go:37-45 | the similarity is the share of the longer text that the fewest edits leave |
| `EditDistance.ComputeSimilarity` | docpipe/textutil/textutil.go:37-45 | Similarity as computed, two empty texts included |
| `Numbers.FmtNum` | internal/checkexpr/eval.go:110-126 | integers below the limit are written with their thousands grouped by points, from the left |
| `Numbers.ParseNumber` | docpipe/textutil/textutil.go:193-233 | what is kept, and which marks are dropped or taken for the decimal point; what follows a single mark is counted in bytes |
| `Numbers.ReadsWhatIsWritten` | docpipe/textutil/textutil.go:193-233 | every integer below 10^15 in magnitude is read back from how it is written, grouped by points or by commas |
| `Numbers.FormattedIsRead` | internal/checkexpr/eval.go:110-126 | fmtNum writes integers so that ParseNumber reads them |
| `Numbers.OneMark` | docpipe/textutil/textutil.go:224-229 | a number with one mark is read as an integer exactly when three digits follow the mark |
| `Numbers.LastMarkIsDecimal` | docpipe/textutil/textutil.go:213-219 | when both marks occur the last one is the decimal mark: grouped digits, the other mark and decimals are put in plain form, whichever mark groups |
| `CacheKey.WriteParts` | internal/container/modelcache.go:24-31 | the bytes hashed are, part by part, the length, a line break and the part |
| `CacheKey.DecodedStream` | internal/container/modelcache.go:22-23 | the hashed stream can be taken apart into its parts again |
| `CacheKey.StreamIsInjective` | internal/container/modelcache.go:22-23 | two requests never share a stream by concatenation |
| `CacheKey.ModelCache.Ask` | internal/container/modelcache.go:33-53 | an answer is always one the model gave to exactly this request: the stored one, without a call, or a new one, which is stored only when the call succeeded |

## Left out

- Bytes: texts are sequences of characters, whose lengths are counted in UTF-8 bytes where the program counts bytes; texts that are no valid UTF-8 are not modelled. The parts of a cache key are sequences of bytes.
- Case folding: letters are lowered as far as the result is an ASCII letter, which is what the comparisons with ASCII words decide on.
- JsonRepair.RepairIsIdempotent: the evaluator itself (`tools.EvalNumber`) is a parameter of which only the form of its results is assumed.
- GuardRender.ReleasedRegionsAreSettled: says nothing of a last line that never got its line break; outside a region such a line is released as it stands.
- EventStream.StreamIsFaithful: the arguments of tool calls are kept as the text that was streamed; their decoding and encoding as JSON are parameters.
- Which of several parallel calls of the same tool a result belongs to: results are matched by name only, and the model claims no more.
- BlockText.ChunksDoNotMatter: the case refs are fixed for a turn; setting them in the middle of one is not modelled.
- Locks and callbacks of the assembler: its methods are atomic, as its mutex makes them.
- The wording of the notices added to transcripts: a notice is a message of its own kind.
- Turn.TurnEndsWithinBudget: the ReAct loop of the library is modelled as a model call followed by its tool round; panics and time-outs are not.
- Continue.BufferedAgreesWithStreamed: a buffered reply is taken to be what the chunks of the streamed one come to.
- TurnProtocol.NoMessageIsStranded: does not say that the model sees a message only once; a message is stored before it is pushed, so a turn that loads its history afterwards sees it in both places.
- TurnStops.StopInterrupts: which words ask for a stop is a property of the request; what an interrupted turn stores is in EventStream.InterruptTellsWhatIsStored.
- TurnProtocol.StepKeeps: that a turn loads the oldest 500 rows only is in History.
- FormulaPrint.ParseInvertsPrint: positions and error messages of the parser are not modelled.
- FormulaSource.SpellingsAreExchanged: a word may also be a name, so of a text with a word nothing is said where the sign in its place makes no formula; the libraries' comparison without regard to case is assumed to tell the words of the language apart.
- FormulaKnowledge.DecidedStaysDecided: leaves out COUNT, EXISTS, SAME, MATCH, CONTAINS, rounding to a computed number of digits and IF between lists, for which it does not hold; FormulaLimits shows a formula for each of them.
- FormulaLaws.BetweenIsBothBounds: bounds that are lists are left out; BETWEEN compares an item with a whole list, which is open, while the comparisons go item by item.
- TurnProgress.RunsEnd: does not bound the model calls of a turn; Turn.TurnEndsWithinBudget does.
- FormulaSearch.MatchAny: whether two texts fit in a mode of comparison (digits, company names, parts, similarity) is a parameter.
- Notes, document references and the wording of what is missing in formula results: the reasons of a missing value are kept, as fixed ones or as texts that a parameter words, because verdicts, aggregates, SAME and MATCH decide on them.
- Floating point: numbers are reals, without rounding, infinities or NaN.
- Numbers.ReadsWhatIsWritten: the reader of plain decimal texts is a parameter that is assumed right on integers below the limit.
- CacheKey.ModelCache.Ask: the hash is assumed to give different streams different keys.
- HTTP, storage, queues, providers, configuration, prompts, document parsing and the frontend.
