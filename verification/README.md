# Verification of the session-lifecycle engine

Cyrus runs coding agents for issues and chat threads. This project models the part of it
that decides what survives a crash, what is told to whom and how often, and the small
algorithms around it that have exact specifications. Each class has the fields of the source
and methods proved equal to a specification function; the theorems are about those functions,
for every input, every run or every interleaving at the awaits.

| file | component |
|---|---|
| `Common.dfy` | option type, white space, JSON objects as ordered records |
| `Jsonc.dfy`, `JsoncShape.dfy`, `JsoncPrinting.dfy`, `JsoncMeaning.dfy` | the comment and trailing-comma stripper of `parseJsonc` |
| `DenyCover.dfy` | the deny list for everything in the home directory that was not asked for |
| `SessionLifecycle.dfy`, `CrashRecovery.dfy`, `TerminalSignal.dfy`, `SessionManager.dfy` | sessions, the one-shot terminal signal, issue locks, crash and recovery |
| `MessageQueue.dfy` | the per-session promise chain |
| `Transcript.dfy` | the one-behind text buffer |
| `CodexMapper.dfy`, `ToolCalls.dfy` | Codex events to messages, and the manager's tool-call table |
| `CursorStream.dfy` | the Cursor runner's stream |
| `Persistence.dfy`, `Migration.dfy` | write-then-rename saves, and the state migrations |
| `EgressPolicy.dfy` | the egress proxy's policy tables and domain patterns |
| `StreamingPrompt.dfy` | the prompt stream's queue and waiting readers |
| `ChatReplies.dfy`, `ChatThreads.dfy`, `ChatPrompts.dfy`, `ChatAnswers.dfy`, `ChatExamples.dfy`, `ChatHandler.dfy` | the chat handler's reply and follow-up queues, and the threads, sessions and runners behind them |
| `TokenCache.dfy` | the GitHub token store's read cache |
| `ConfigReload.dfy` | the repository diff of a config reload |

`dafny verify dfyconfig.toml` checks everything.

## How the source is modelled

* Asynchronous code is a step relation: one step is what runs between two awaits, and a run
  is any legal sequence of steps, crashes included. The classes' methods are the same steps
  as code (`SessionManager`, `Persistence`, `ChatHandler`, `MessageQueue`). A save of the state
  takes its snapshot in one step and replaces the file in another, so saves can overtake each
  other; the operations of `SessionManager` have their flush with nothing in between.
* What I/O, clocks and other services do comes in as parameters or as steps: whether a post,
  a flush, a write or a rename fails, which bytes of a torn write reach the disk, in which
  order a map is walked, which stamp a file gets.
* The chat handler sees of a runner that it is attached to a session, started, emits, stops, or
  has its start rejected, and these are steps. A runner that has stopped emits nothing, and its
  `addStreamMessage` throws. What an event does before its first await is one step, and so is a
  whole batch of follow-ups.
* The router is modelled only by the effects documented on the manager: creating or attaching
  a session takes its issue lock, the terminal signal drops it, and the hello list drops the
  locks of all sessions it omits.

## Where the source falls short of what is expected of it

Each of these is proved: a lemma shows a concrete input or run that falls short, or a theorem
gives the exact condition under which the code does what is expected, and mostly both.

* A host crash between claiming and emitting a terminal signal leaves the lock held
  (`CrashBeforeEmission`), and so does one after a re-attachment that the state file does not
  show, either because it was not saved yet (`CrashBeforeAttachSaved`) or because a save called
  before it landed after its own (`OlderSaveLands`). Exactly: `LeakExactly`; over runs:
  `LocksRecovered`.
* A session that failed before it was attached is signalled twice although it was attached
  only once (`FirstAttachmentRevives`). One signal and one more for each later attachment is
  the bound if and only if none was sent or claimed before the first (`FirstAttachmentOfRun`).
* A signal still in flight strips a revived session of its lock (`StaleSignal`). An attachment
  is safe in every orderly future if and only if none is in flight (`AttachmentExactly`).
* Removing a session while a handler is outstanding lets the next handler run beside it
  (`RemovalExactly`).
* `parseJsonc` turns `1/**/2` into `12` (`GluedExample`, exactly `TokensSurvive`) and leaves
  one of two dangling commas (`DoubleCommaExample`, exactly `IdempotentIffNoDoubleComma`).
* The deny cover drops requests whose first name under home starts with two dots, and home
  itself (`CoverExactly`).
* An assistant message without content after a text makes that text appear twice
  (`OnceExactly`); after a stop a waiting text is lost (`TurnRecords`).
* The tool-call table is shared by all sessions, so two Codex sessions with the same item id
  can render a result as "Tool" (`SharedIdsExample`, exactly `SharedTable`).
* A Cursor session whose stream ends in an error posts its result twice when nobody listens
  for errors; one that fails before its stream begins does not (`SessionOutput`).
* A reply can acknowledge a chat event whose prompt the runner has not been given, and, when
  `addStreamMessage` throws, never will be (`UnheardExample`). Every future acknowledges an
  event only after its prompt if and only if that has been given by now, or the event is on
  the way to a turn of its own, lost, discarded or stranded (`HeardExactly`). It stays unheard
  in every future if and only if its prompt is not on the way to a running runner
  (`NeverHeardExactly`).
* An event stays in its session's reply queue for good, neither acknowledged nor discarded,
  when its session's runner ends without a result and no turn of the session can follow
  (`StrandedExample`; exactly `AnswerableExactly`).
* A state document whose migrating save fails is loaded as no state (`LoadsAgree`).
* A config reload keeps reporting repositories whose paths resolve to others or, without a
  workspace directory, cannot be resolved, and inactive new ones (`ReloadSettles`).
* The token cache is stale when another writer brings back a time stamp and size
  (`StaleExample`). Loads are true throughout a run if and only if no other writer brings
  other tokens under the stamp cached then (`LoadsTrueExactly`).

## Model

| member | source | states |
|---|---|---|
| Jsonc.StripJsonc | packages/core/src/devcontainer.ts:40-103 | the one-pass loop with its four state variables yields exactly what two separate string-aware passes yield: delete comments, then delete each comma that only white space separates from a closer |
| Jsonc.SkipLineComment | packages/core/src/devcontainer.ts:76-79 | a line comment ends before the line break, which stays |
| Jsonc.SkipBlockComment | packages/core/src/devcontainer.ts:80-86 | a block comment ends behind its first closing mark, or with the text |
| Whitespace.RegexSpaceExactly | packages/core/src/devcontainer.ts:87-98 | the white space between a comma and a closer is these twenty-five characters |
| Whitespace.TrimExactly | packages/core/src/PersistenceManager.ts:207-213 | trimming takes the white space off both ends and nothing else |
| Jsonc.PendingKept | packages/core/src/devcontainer.ts:87-98 | a provisional comma and the space behind it stay when the next significant character is no closer |
| Jsonc.PendingDropped | packages/core/src/devcontainer.ts:87-98 | a provisional comma goes, with the space behind it, when a closer comes next |
| JsoncShape.UnchangedIffClean | packages/core/src/devcontainer.ts:40-103 | text comes back unchanged if and only if it has no comment and no trailing comma outside strings |
| JsoncShape.NoCommentLeft | packages/core/src/devcontainer.ts:54-101 | no comment start survives outside a string |
| JsoncShape.IdempotentIffNoDoubleComma | packages/core/src/devcontainer.ts:54-101 | stripping twice is stripping once if and only if no two commas dangle together |
| JsoncShape.DoubleCommaExample | packages/core/src/devcontainer.ts:91-98 | of two dangling commas only one is taken |
| JsoncShape.LiteralsSurvive | packages/core/src/devcontainer.ts:56-75 | the string literals of any text come through verbatim and in order, escapes and all |
| JsoncPrinting.CommentsOfRender | packages/core/src/devcontainer.ts:76-86 | the first pass on a printed document removes exactly its comments |
| JsoncPrinting.CommasOfRender | packages/core/src/devcontainer.ts:87-100 | the second pass removes exactly the added trailing commas with the space behind them |
| JsoncMeaning.TokensSurvive | packages/core/src/devcontainer.ts:40-103 | a token list decorated with comments, white space and trailing commas is tokenised back to itself if and only if no two atoms have only block comments between them |
| JsoncMeaning.GluedExample | packages/core/src/devcontainer.ts:80-86 | a block comment between two numbers joins them |
| JsoncMeaning.ParseTokens | packages/core/src/devcontainer.ts:102 | parsing the tokens of a JSON value gives the value back, for every value |
| JsoncMeaning.MeaningPreserved | packages/core/src/devcontainer.ts:40-103 | however a JSON value is decorated with comments, white space and trailing commas, parsing the stripped text gives that value |
| JsoncMeaning.ParseJsonc | packages/core/src/devcontainer.ts:40-103 | strip, then parse: the whole function has the meaning the theorem speaks of |
| DenyCover.DenyWalk.ProcessDir | packages/claude-runner/src/home-directory-restrictions.ts:49-97 | the recursive walk that pushes onto the shared array appends exactly the specified denies, and ends because each recursion strips a path segment, even in a cyclic graph |
| DenyCover.ChildrenOf | packages/claude-runner/src/home-directory-restrictions.ts:65-82 | the child paths handed to the recursion are exactly the tails of the relevant paths with that head, and strictly less in total length |
| DenyCover.WalkExact | packages/claude-runner/src/home-directory-restrictions.ts:49-97 | a file is denied if and only if no relevant path leads to it or lies below it, and the directory where it leaves them can be listed |
| DenyCover.ReadableListed | packages/claude-runner/src/home-directory-restrictions.ts:55-60 | with readable directories that directory can always be listed |
| DenyCover.DirOnce | packages/claude-runner/src/home-directory-restrictions.ts:49-97 | each deny is emitted once |
| DenyCover.KeptExactly | packages/claude-runner/src/home-directory-restrictions.ts:34-38 | the filter keeps exactly the paths strictly below home whose first name does not start with two dots |
| DenyCover.DeniedAsRead | packages/claude-runner/src/home-directory-restrictions.ts:34-101 | with every directory readable a file under home is denied if and only if some request is below home under a name that does not begin with two dots, hidden ones included, and none of those leads to the file or below it |
| DenyCover.BuildHomeDirectoryDisallowedTools | packages/claude-runner/src/home-directory-restrictions.ts:26-102 | the whole function: no kept path, no denies; otherwise the walk of the home directory |
| DenyCover.DeniedExactly | packages/claude-runner/src/home-directory-restrictions.ts:34-101 | for every graph and request list: denies are distinct, and a file under home is denied if and only if some path was kept and it is off limits to all of them (and listable) |
| DenyCover.CoverExactly | packages/claude-runner/src/home-directory-restrictions.ts:34-101 | the cover is what a caller asked for, on every readable graph, if and only if every request under home is below it under a first name that does not begin with two dots, or home itself was requested and all requests below it do begin so |
| SessionManager.AgentSessionManager.RestoreState | packages/edge-worker/src/AgentSessionManager.ts:2376-2414 | the sessions of the file, and the claim of every session the file calls terminal |
| SessionManager.AgentSessionManager.CreateSession | packages/edge-worker/src/AgentSessionManager.ts:281-323 | an active session without runner, under a lock |
| SessionManager.AgentSessionManager.AddAgentRunner | packages/edge-worker/src/AgentSessionManager.ts:1996-2038 | attaching clears the claim and the persisted terminal state, revives a terminal status, and takes the lock again |
| SessionManager.AgentSessionManager.UpdateSessionStatus | packages/edge-worker/src/AgentSessionManager.ts:1168-1184 | the status of a known session and nothing else |
| SessionManager.AgentSessionManager.RequestSessionStop | packages/edge-worker/src/AgentSessionManager.ts:797-799 | remembers the stop |
| SessionManager.AgentSessionManager.ConsumeStopRequest | packages/edge-worker/src/AgentSessionManager.ts:788-795 | tells whether a stop was requested and forgets it |
| SessionManager.AgentSessionManager.EmitTerminalOnce | packages/edge-worker/src/AgentSessionManager.ts:840-894 | claim, flush, emit; nothing when already claimed and not forced |
| SessionManager.AgentSessionManager.CompleteSession | packages/edge-worker/src/AgentSessionManager.ts:491-672 | the completion of the theorems below, with every way its posts, pending work and flush can turn out |
| SessionManager.AgentSessionManager.AbortSession | packages/edge-worker/src/AgentSessionManager.ts:912-918 | the stopped signal, forced or not |
| SessionManager.AgentSessionManager.FailSession | packages/edge-worker/src/AgentSessionManager.ts:938-950 | error status, error activity, failed signal |
| SessionManager.AgentSessionManager.ReconcileInterruptedSessions | packages/edge-worker/src/AgentSessionManager.ts:1945-1991 | the loop fails exactly the sessions that were interrupted when it began, in whatever order it walks them |
| SessionManager.AgentSessionManager.GetLiveSessionIds | packages/edge-worker/src/AgentSessionManager.ts:1908-1915 | the sessions with a runner or a status that is not terminal |
| SessionManager.AgentSessionManager.RemoveSession | packages/edge-worker/src/AgentSessionManager.ts:2312-2325 | forgets the session, its claim and its stop request |
| SessionManager.Boot | packages/edge-worker/src/AgentSessionManager.ts:1945-1991 | restore, reconcile and hello in code hold the locks the recovery theorem speaks of, and those on settled sessions are exactly the locked zombies of the file |
| SessionLifecycle.Serialized | packages/edge-worker/src/AgentSessionManager.ts:2349-2374 | every session is saved, none with its runner |
| SessionLifecycle.AttachExactly | packages/edge-worker/src/AgentSessionManager.ts:1996-2038 | an attached session has its lock, no claim and no terminal state, and is active again exactly if it had ended and said so; no other session changes |
| SessionLifecycle.FailureExactly | packages/edge-worker/src/AgentSessionManager.ts:938-949 | the whole state a failure leaves: error status, the error activity unless posting throws, and the failed signal behind it unless one was sent before |
| SessionLifecycle.AbortExactly | packages/edge-worker/src/AgentSessionManager.ts:912-918 | a stop signals unless one was signalled before and it is not forced; a forced one always does |
| SessionLifecycle.HelloExactly | packages/edge-worker/src/AgentSessionManager.ts:1908-1916 | a hello leaves exactly the locks of known sessions with a runner or a status that is not final |
| CrashRecovery.ReconcileEffect | packages/edge-worker/src/AgentSessionManager.ts:1945-1991 | reconciling any list of sessions fails, claims and unlocks exactly the interrupted ones and leaves the others alone |
| CrashRecovery.LeakExactly | packages/edge-worker/src/AgentSessionManager.ts:1945-1991 | after a crash in any state, recovery leaves a lock on an active, pending, complete or failed session if and only if it was locked and looks alive on disk although its signal was claimed |
| CrashRecovery.LocksRecovered | packages/edge-worker/src/AgentSessionManager.ts:840-950 | in every run, with saves overlapping and landing in any order, each lock that recovery leaves on a settled session belongs to one that some crash hit between claim and emission, or that was attached since the snapshot in the state file was taken |
| CrashRecovery.NoLockLeaks | packages/edge-worker/src/AgentSessionManager.ts:840-950 | when no crash finds an open claim or an attachment that the state file does not show, every lock held after recovery belongs to a session that is none of active, pending, complete and failed |
| CrashRecovery.CrashBeforeEmission | packages/edge-worker/src/AgentSessionManager.ts:864-893 | a crash between the flush and the emission of a stop leaves the lock held |
| CrashRecovery.CrashBeforeAttachSaved | packages/edge-worker/src/AgentSessionManager.ts:1996-2038 | so does a crash between a re-attachment and its flush |
| CrashRecovery.OlderSaveLands | packages/core/src/PersistenceManager.ts:22-30 | and so does one after a save called before the re-attachment has landed behind the re-attachment's own; up to that landing nothing leaks |
| TerminalSignal.EmissionsBounded | packages/edge-worker/src/AgentSessionManager.ts:840-894 | from every state, unforced emissions are bounded by the free claim, the signals in flight and the times the claim is taken away |
| TerminalSignal.OneShot | packages/edge-worker/src/AgentSessionManager.ts:840-894 | without removal and restart, for every interleaving, unforced emissions never exceed one plus the attachments that revived the session |
| TerminalSignal.FirstAttachmentRevives | packages/edge-worker/src/AgentSessionManager.ts:2014-2037 | a first attachment can be such a revival: two signals with one attachment |
| TerminalSignal.FirstAttachmentExactly | packages/edge-worker/src/AgentSessionManager.ts:2014-2037 | from every state at a first attachment: one signal and one more for each later attachment bounds every undisturbed future, earlier signals included, if and only if none was sent or claimed before |
| TerminalSignal.FirstAttachmentOfRun | packages/edge-worker/src/AgentSessionManager.ts:840-894 | the same for whole runs: any run up to the first attachment and every future of it |
| TerminalSignal.RunningKeepsLock | packages/edge-worker/src/AgentSessionManager.ts:1996-2038 | when attachments wait for signals in flight, a running session holds its lock after every run |
| TerminalSignal.StaleSignal | packages/edge-worker/src/AgentSessionManager.ts:855-893 | when they do not wait, a running session can be without its lock |
| TerminalSignal.AttachmentExactly | packages/edge-worker/src/AgentSessionManager.ts:1996-2038 | every orderly future of an attachment keeps the lock of the running session if and only if no signal of it is in flight at the attachment |
| TerminalSignal.CompletionIsLast | packages/edge-worker/src/AgentSessionManager.ts:491-672 | after a completion that is not deferred no further unforced signal is sent in any undisturbed future until the session is attached again |
| TerminalSignal.CompletionExactly | packages/edge-worker/src/AgentSessionManager.ts:491-672 | the whole state a completion leaves, in every case: status, activities, claim, flushed file, signal and lock; nothing is signalled exactly when a good result was posted, no stop was asked for, and the attached runner has work pending |
| TerminalSignal.CompletionClaims | packages/edge-worker/src/AgentSessionManager.ts:613-668 | a known session not signalled before ends claimed, signalled and unlocked, all three if and only if it is not held open for pending work after a good result |
| TerminalSignal.ErrorReleases | packages/edge-worker/src/AgentSessionManager.ts:558-570 | an errored or stopped turn always ends with the signal sent and the lock dropped, whatever work is pending |
| TerminalSignal.DeferralKeepsLock | packages/edge-worker/src/AgentSessionManager.ts:564-668 | a deferred session signals nothing, keeps its lock and stays on the hello list |
| TerminalSignal.CompletionIsRun | packages/edge-worker/src/AgentSessionManager.ts:491-672 | a completion is a legal run of the lifecycle steps |
| TerminalSignal.FailureIsRun | packages/edge-worker/src/AgentSessionManager.ts:938-950 | so is a failure |
| MessageQueue.MessageQueues.HandleClaudeMessage | packages/edge-worker/src/AgentSessionManager.ts:1004-1019 | the call is chained to the session's last caught promise and becomes the last |
| MessageQueue.MessageQueues.RemoveSession | packages/edge-worker/src/AgentSessionManager.ts:2312-2325 | the chain's end is forgotten |
| MessageQueue.OneAtATime | packages/edge-worker/src/AgentSessionManager.ts:1004-1019 | for every schedule and every failing handler, at most one handler of a session is in progress, and none starts before all earlier ones settled |
| MessageQueue.ArrivalOrder | packages/edge-worker/src/AgentSessionManager.ts:1004-1019 | handlers of a session start in order of arrival |
| MessageQueue.NoneLost | packages/edge-worker/src/AgentSessionManager.ts:1010-1018 | a failed handler never skips a later one, and while a call is outstanding some call can take a step |
| MessageQueue.RemovalExactly | packages/edge-worker/src/AgentSessionManager.ts:2323 | removing a session keeps its handlers serialised in every future if and only if none is outstanding |
| Transcript.SessionTranscript.FlushBufferedAssistant | packages/edge-worker/src/AgentSessionManager.ts:1130-1138 | a buffered text is recorded as a thought unless blank, and the buffer is emptied |
| Transcript.SessionTranscript.ProcessMessage | packages/edge-worker/src/AgentSessionManager.ts:1053-1102 | one message of a turn, with the last body, its tool flag and the buffer |
| Transcript.SessionTranscript.ProcessResult | packages/edge-worker/src/AgentSessionManager.ts:1189-1302 | the result of a turn: buffer discarded, stop consumed, one response at most |
| Transcript.HandledOneBehind | packages/edge-worker/src/AgentSessionManager.ts:1062-1102 | for every message stream, all but a last text has been recorded, that text is in the buffer, and the last body is the last content |
| Transcript.MessageRecords | packages/edge-worker/src/AgentSessionManager.ts:1053-1102 | one message: a user entry; or the text that waited and the tool call, or the new text waits |
| Transcript.ResultRecords | packages/edge-worker/src/AgentSessionManager.ts:1189-1302 | one result: nothing after a stop; else an error's text, or after a tool call the wake-up or the result's own text, or the last text |
| Transcript.UsersRecorded | packages/edge-worker/src/AgentSessionManager.ts:1053-1102 | every user message is recorded, once and in order, whatever comes between |
| Transcript.TurnRecords | packages/edge-worker/src/AgentSessionManager.ts:1062-1302 | everything a turn adds, for every stream and every result, also after a stop or an error; a tool's input is never the response |
| Transcript.ExactlyOnce | packages/edge-worker/src/AgentSessionManager.ts:1220-1272 | from clean buffers, with content in every assistant message and a good result, each non-blank text is recorded once in order, the last message as the response and the others as thoughts |
| Transcript.OnceExactly | packages/edge-worker/src/AgentSessionManager.ts:1062-1109 | whatever the messages, when the last content is a text the turn shows every text exactly once if and only if no empty message follows it |
| CodexMapper.CodexEventMapper.Reset | packages/codex-runner/src/CodexEventMapper.ts:303-316 | a fresh mapper |
| CodexMapper.CodexEventMapper.EmitToolMessagesForItem | packages/codex-runner/src/CodexEventMapper.ts:486-528 | a use if the id is not open, then a result if asked for; delivered as listed |
| CodexMapper.CodexEventMapper.HandleEvent | packages/codex-runner/src/CodexEventMapper.ts:322-362 | one event, with every field it changes and everything listed delivered |
| CodexMapper.CodexEventMapper.FinalizeRun | packages/codex-runner/src/CodexEventMapper.ts:368-393 | the end of a run, with every field it changes |
| CodexMapper.EventLists | packages/codex-runner/src/CodexEventMapper.ts:322-362 | what each event lists behind any others: the first init, a use for a tool item whose id is closed, the result of a completed one with its own content and flag, the trimmed text of an agent message that is not blank, and nothing else |
| CodexMapper.FeedLists | packages/codex-runner/src/CodexEventMapper.ts:322-362 | the whole list, from the events alone |
| CodexMapper.TurnEnds | packages/codex-runner/src/CodexEventMapper.ts:340-362 | a completed turn reports the last text listed, a failed one its own error, else the last reported, else the stock sentence |
| CodexMapper.FinalizeAdds | packages/codex-runner/src/CodexEventMapper.ts:368-393 | finalizing adds the init if there was none and then the one result: the pending one, else a caught error unless the run was stopped, else the last text |
| CodexMapper.FeedBracketed | packages/codex-runner/src/CodexEventMapper.ts:486-528 | for every event sequence a use comes only when its id is closed and a result only when it is open, and `emittedToolUseIds` is exactly the set of open ids |
| CodexMapper.BracketCounts | packages/codex-runner/src/CodexEventMapper.ts:486-528 | at each prefix of a bracketed list, uses minus results of an id is one while it is open and else zero |
| CodexMapper.FeedRemembers | packages/codex-runner/src/CodexEventMapper.ts:322-362 | the mapper's fields are the last words, last usage, last error and last turn end of the events |
| CodexMapper.RunReports | packages/codex-runner/src/CodexEventMapper.ts:368-393 | a run's whole list: what the events list, the one init if no thread started, and at most one result, decided by the last turn end, which only a stop can leave out |
| ToolCalls.ToolCallTable.SyncEntry | packages/edge-worker/src/AgentSessionManager.ts:1463-1637 | a use is registered, a result is looked up and its call deleted |
| ToolCalls.TableIsOpenCalls | packages/edge-worker/src/AgentSessionManager.ts:1463-1637 | for every stream the table holds exactly the calls left open, and what it held before under ids never named |
| ToolCalls.MapperFeedsTable | packages/codex-runner/src/CodexEventMapper.ts:486-528 | mapper and manager together: every result is rendered under the use it answers, and the table's ids are exactly the mapper's open ids |
| ToolCalls.LaterRun | packages/codex-runner/src/CodexEventMapper.ts:303-316 | a run after a reset renders its results right whatever earlier runs left in the table |
| ToolCalls.SharedTable | packages/edge-worker/src/AgentSessionManager.ts:1463-1477 | with sessions interleaved over the one table, a lookup falls back to "Tool" if and only if the last message naming the id is another session's result |
| ToolCalls.SharedIdsExample | packages/edge-worker/src/AgentSessionManager.ts:1463-1477 | two mappers' own streams in which that happens |
| CursorStream.CursorRunner.HandleAssistantEvent | packages/cursor-runner/src/CursorRunner.ts:655-703 | text deltas are buffered, a tool block flushes them and is emitted once |
| CursorStream.CursorRunner.HandleSdkEvent | packages/cursor-runner/src/CursorRunner.ts:623-764 | one event, with every field it changes |
| CursorStream.CursorRunner.FlushAssistantTextBuffer | packages/cursor-runner/src/CursorRunner.ts:1009-1015 | one message for the buffer unless blank |
| CursorStream.CursorRunner.FinalizeSession | packages/cursor-runner/src/CursorRunner.ts:1104-1139 | init, flush, result |
| CursorStream.CursorRunner.Start | packages/cursor-runner/src/CursorRunner.ts:441-578 | a whole session: refused before its stream, or streamed, with its error, and finalized again when the first finalization throws |
| CursorStream.FoldIs | packages/cursor-runner/src/CursorRunner.ts:655-703 | buffering delta by delta gives each maximal run of deltas as one text, blank runs dropped, in order with what interrupts them |
| CursorStream.EventAdds | packages/cursor-runner/src/CursorRunner.ts:623-764 | what each event lists: the text that waited, the first init, and a user text, or a use whose id is new and the result with its own text |
| CursorStream.BlockAdds | packages/cursor-runner/src/CursorRunner.ts:655-703 | what each block of an assistant event does: text waits, a tool use comes behind the text that waited |
| CursorStream.StatusLeaves | packages/cursor-runner/src/CursorRunner.ts:744-764 | what a status leaves to be reported, with its text |
| CursorStream.FinalizeAdds | packages/cursor-runner/src/CursorRunner.ts:1104-1139 | what finalizing lists: init, the text that waited, and the one result, by status, error or last text |
| CursorStream.SessionOutput | packages/cursor-runner/src/CursorRunner.ts:441-578 | the exact output of every session: one init, the runs of text and the tool calls in order, one result; and that result a second time if and only if the stream left an error, thrown or reported, and nobody listens for errors; an error before the stream is posted once |
| CursorStream.ToolsFramed | packages/cursor-runner/src/CursorRunner.ts:967-996 | in every output each tool id has at most one use, and every result comes after it |
| Persistence.TempsDiffer | packages/core/src/PersistenceManager.ts:22-30 | two counters of one process never give the same temp file name |
| Persistence.TempsOfProcessesDiffer | packages/core/src/PersistenceManager.ts:139-145 | no two saves share a temp name, in one process or in two |
| Persistence.CorruptIsKept | packages/core/src/PersistenceManager.ts:290-302 | the sweep never takes a preserved corrupt file |
| Persistence.PersistenceManager.BeginSave | packages/core/src/PersistenceManager.ts:140-145 | a temp name of its own for each save |
| Persistence.PersistenceManager.RenameTemp | packages/core/src/PersistenceManager.ts:158 | the temp file takes the state file's place in one step |
| Persistence.PersistenceManager.CleanUp | packages/core/src/PersistenceManager.ts:159-165 | a failed save removes its temp file if it can |
| Persistence.PersistenceManager.SaveEdgeWorkerState | packages/core/src/PersistenceManager.ts:140-166 | success means the state file is the text, failure that it is what it was; no file is left over unless removal failed |
| Persistence.PersistenceManager.RemoveStaleTempFiles | packages/core/src/PersistenceManager.ts:173-191 | exactly the stale temp files go, less those whose removal fails |
| Persistence.PersistenceManager.LoadEdgeWorkerState | packages/core/src/PersistenceManager.ts:197-302 | a document if there is one; blank is no state; an unparseable file is no state either and is moved aside if it can be |
| Persistence.PersistenceManager.DeleteStateFile | packages/core/src/PersistenceManager.ts:457-466 | an existing state file is emptied |
| Persistence.FileIsLastRename | packages/core/src/PersistenceManager.ts:140-191 | for every interleaving of overlapping saves, torn and failing writes, sweeps and crashes, the state file is exactly the whole text of the last save renamed, unless emptied or moved aside since |
| Persistence.NeverReappears | packages/core/src/PersistenceManager.ts:140-166 | once a save has been renamed, no text of a save that was renamed before it began is in the state file again |
| Persistence.SavedIsNeverCorrupt | packages/core/src/PersistenceManager.ts:209-237 | after one completed save no load takes the file for corrupt |
| Persistence.LoadGivesLastSave | packages/core/src/PersistenceManager.ts:197-237 | a load after any run gives the text of the last save renamed; crashes and failing saves never lose it |
| Migration.MigrateV2ToV3 | packages/core/src/PersistenceManager.ts:313-341 | the nested loops re-key every session by its new id, repository by repository |
| Migration.MigrateV3ToV4 | packages/core/src/PersistenceManager.ts:351-403 | the flat state of the theorems, with children and cache carried over |
| Migration.FlattenSessions | packages/core/src/PersistenceManager.ts:361-376 | the nested loops are one assignment after another, each session filed under its repository |
| Migration.FlatKeepsSessions | packages/core/src/PersistenceManager.ts:361-376 | flattening keeps every session if and only if no id occurs twice, invents none, and every session kept has a repository: its own, or the one it was under |
| Migration.FlatHolds | packages/core/src/PersistenceManager.ts:361-376 | then each session is found under its id |
| Migration.FlatKeepsEntries | packages/core/src/PersistenceManager.ts:379-385 | the same for entry lists, with their contents |
| Migration.CacheWrapped | packages/core/src/PersistenceManager.ts:386-395 | every cached issue is kept, with its one repository as a list |
| Migration.BothSteps | packages/core/src/PersistenceManager.ts:246-262 | version 2.0 through both steps: when no Linear id occurs twice, each session is under its Linear id, migrated, with exactly its old repository |
| Migration.LoadDocument | packages/core/src/PersistenceManager.ts:245-281 | which state each version loads as, and the document left on disk, also when the migrating save fails |
| Migration.LoadsAgree | packages/core/src/PersistenceManager.ts:246-278 | however often the migrating save fails, nothing is given before it succeeds, and every load from then on gives the same state |
| EgressPolicy.EgressProxy.constructor | packages/edge-worker/src/EgressProxy.ts:88-102 | a proxy holds the tables compiled from its policy |
| EgressPolicy.EgressProxy.ParsePolicy | packages/edge-worker/src/EgressProxy.ts:372-423 | the loops fill the sets and the map that the policy compiles to |
| EgressPolicy.MergeTransforms | packages/edge-worker/src/EgressProxy.ts:406-417 | all headers of all transforms merged in order, and whether there is any transform |
| EgressPolicy.EgressProxy.UpdateNetworkPolicy | packages/edge-worker/src/EgressProxy.ts:253-261 | whatever the proxy held before, it ends with the same structures as a fresh proxy with the new policy |
| EgressPolicy.EgressProxy.MatchDomain | packages/edge-worker/src/EgressProxy.ts:460-470 | the host itself if listed, else the first pattern that matches |
| EgressPolicy.EgressProxy.IsDomainAllowed | packages/edge-worker/src/EgressProxy.ts:441-454 | the three modes give the one decision of the theorem |
| EgressPolicy.EgressProxy.GetTransformsForDomain | packages/edge-worker/src/EgressProxy.ts:497-505 | the headers of the matching pattern, if it has any transform |
| EgressPolicy.EgressProxy.RequiresTlsTermination | packages/edge-worker/src/EgressProxy.ts:510-514 | whether the matching pattern is in the termination set |
| EgressPolicy.GlobByLabels | packages/edge-worker/src/EgressProxy.ts:484-489 | a mid-star pattern matches a host if and only if both have equally many labels and each label matches with star as one or more characters |
| EgressPolicy.LeadingStar | packages/edge-worker/src/EgressProxy.ts:479-482 | a leading star matches if and only if the host's last labels are those of the rest and others come before them |
| EgressPolicy.OtherPatterns | packages/edge-worker/src/EgressProxy.ts:484-491 | a pattern that does not begin with a star and a dot matches if and only if it has a star and its labels match; without a star it matches nothing |
| EgressPolicy.LabelsExactly | packages/edge-worker/src/EgressProxy.ts:484-489 | the labels are the one way to write a host as dot-free parts joined by dots |
| EgressPolicy.StarredLabel | packages/edge-worker/src/EgressProxy.ts:484-489 | a label with one star matches if and only if the rest surrounds one character or more |
| EgressPolicy.AllowedExactly | packages/edge-worker/src/EgressProxy.ts:372-454 | a host is allowed if and only if nothing is declared at all, or a declared or trusted domain is the host or covers it label by label |
| EgressPolicy.DeclaredExactly | packages/edge-worker/src/EgressProxy.ts:372-423 | declared are the domains of the allow list, and the preset ones if asked for |
| EgressPolicy.PlainListsAdmitThemselves | packages/edge-worker/src/EgressProxy.ts:441-454 | a list without stars admits its own domains and no other host |
| EgressPolicy.MergedExactly | packages/edge-worker/src/EgressProxy.ts:406-417 | a header is injected if and only if some transform has it, with the value of the last that does |
| EgressPolicy.RulesExactly | packages/edge-worker/src/EgressProxy.ts:375-387 | the rules of a domain are those declared for it, and an empty one for a preset domain not declared |
| EgressPolicy.InjectedExactly | packages/edge-worker/src/EgressProxy.ts:497-514 | TLS is intercepted if and only if headers are to be injected, which is when the rules declared for the matching domain have a transform; the headers are theirs, merged |
| EgressPolicy.WinnerExactly | packages/edge-worker/src/EgressProxy.ts:460-470 | the pattern that decides is the host itself if it is listed, else the first listed one that covers it label by label |
| EgressPolicy.TabledOrder | packages/edge-worker/src/EgressProxy.ts:399-402 | patterns are listed in the order in which they are declared |
| EgressPolicy.HeldPolicyIsStable | packages/edge-worker/src/EgressProxy.ts:375-387 | updating with the policy a proxy already holds, preset expanded, changes nothing |
| StreamingPrompt.StreamingPrompt.constructor | packages/core/src/StreamingPrompt.ts:16-21 | an empty stream, or one with the first prompt in it |
| StreamingPrompt.StreamingPrompt.AddMessage | packages/core/src/StreamingPrompt.ts:27-44 | refused once complete; else queued or given to a waiting reader |
| StreamingPrompt.StreamingPrompt.CompleteStream | packages/core/src/StreamingPrompt.ts:46-49 | every waiting reader gets the end |
| StreamingPrompt.StreamingPrompt.ProcessQueue | packages/core/src/StreamingPrompt.ts:55-69 | the pairing loop |
| StreamingPrompt.StreamingPrompt.NextMessage | packages/core/src/StreamingPrompt.ts:71-86 | a message, the end, or a place among the waiting |
| StreamingPrompt.RunIsIdeal | packages/core/src/StreamingPrompt.ts:27-86 | after every sequence of calls the whole state is determined by what was accepted, how often was asked, and whether the stream is complete |
| StreamingPrompt.Delivery | packages/core/src/StreamingPrompt.ts:27-86 | the k-th reader gets the k-th accepted message; waiting readers imply an empty queue and an open stream; the end comes only after completion with every message given; delivered followed by queued is what was accepted |
| StreamingPrompt.AcceptedCarries | packages/core/src/StreamingPrompt.ts:27-86 | an accepted message carries its content and the session id set by then, or "pending"; nothing is accepted after completion |
| ChatHandler.ChatSessionHandler.EnqueueReply | packages/edge-worker/src/ChatSessionHandler.ts:698-703 | the event ends the session's queue and is its last |
| ChatHandler.ChatSessionHandler.DrainReplies | packages/edge-worker/src/ChatSessionHandler.ts:705-710 | the whole queue, which is then gone |
| ChatHandler.ChatSessionHandler.ClearPendingReplies | packages/edge-worker/src/ChatSessionHandler.ts:718-726 | the queue is discarded and the last event forgotten |
| ChatHandler.ChatSessionHandler.QueuePendingFollowup | packages/edge-worker/src/ChatSessionHandler.ts:653-657 | the event waits in its thread's queue |
| ChatHandler.ChatSessionHandler.ThreadKeyForSession | packages/edge-worker/src/ChatSessionHandler.ts:659-666 | a thread bound to the session if there is any |
| ChatHandler.ChatSessionHandler.DrainPendingFollowups | packages/edge-worker/src/ChatSessionHandler.ts:674-696 | the thread's follow-ups become one scheduled batch |
| ChatHandler.ChatSessionHandler.HandleResult | packages/edge-worker/src/ChatSessionHandler.ts:608-628 | a result up to the awaited post: the queue drained, the reply's event chosen |
| ChatHandler.ChatSessionHandler.ReplyPosted | packages/edge-worker/src/ChatSessionHandler.ts:629-650 | the rest of it: events acknowledged, follow-ups scheduled |
| ChatHandler.ChatSessionHandler.HandleEvent | packages/edge-worker/src/ChatSessionHandler.ts:189-303 | an event up to its first await, by its effects: it ends the reply queue and its prompt waits if the thread's runner runs and streams, ends the follow-ups if it runs and does not, is on the way to a turn if the session can be resumed or has to be created, and is lost if the adapter throws or it may not begin a session |
| ChatHandler.ChatSessionHandler.HandleBatch | packages/edge-worker/src/ChatSessionHandler.ts:684-696 | the callback's loop over a batch, event by event, comes to one step in which all go the same way |
| ChatHandler.ChatSessionHandler.OpenSession | packages/edge-worker/src/ChatSessionHandler.ts:288-324 | behind the workspace's await: the new session becomes its thread's, or the event is given up |
| ChatHandler.ChatSessionHandler.AddRunner | packages/edge-worker/src/ChatSessionHandler.ts:535-549 | behind the configuration's await: the runner is attached to the session, or the event is given up with the thread left bound |
| ChatHandler.ChatSessionHandler.StartRunner | packages/edge-worker/src/ChatSessionHandler.ts:350-377 | behind the context's await: the event is queued and its turn started, or it is given up |
| ChatHandler.ChatSessionHandler.StartFailed | packages/edge-worker/src/ChatSessionHandler.ts:386-395 | a rejected start discards the session's queue |
| ChatHandler.ChatSessionHandler.CatchUp | packages/edge-worker/src/ChatSessionHandler.ts:216-226 | the rest of an injection: the prompt is given to the runner, or `addStreamMessage` throws and it never is |
| ChatHandler.OpenExactly | packages/edge-worker/src/ChatSessionHandler.ts:207-286 | an event may go a way if and only if some circumstances make the code take that branch |
| ChatHandler.HandledSnoc | packages/edge-worker/src/ChatSessionHandler.ts:684-696 | one more event of a batch handled alone is the batch with it handled at once, for every way |
| ChatReplies.OnePlace | packages/edge-worker/src/ChatSessionHandler.ts:608-726 | conservation: in every run, at every moment, an event that arrived is once in exactly one of reply queue, result being answered, follow-up queue, scheduled batch, acknowledged and discarded, or is on the way to a turn of its own or lost |
| ChatReplies.PlaceAfter | packages/edge-worker/src/ChatSessionHandler.ts:189-726 | every step moves exactly the events it should, and to where it should, whichever of them is looked at |
| ChatReplies.ResultAnswersAll | packages/edge-worker/src/ChatSessionHandler.ts:608-650 | a result leaves nothing in the reply queue, and every event that was in it is acknowledged once the reply is posted, whatever happens in between |
| ChatThreads.RunSound | packages/edge-worker/src/ChatSessionHandler.ts:189-726 | in every run every event stays in its own thread and session, batches are of one thread, and whatever speaks of a session, that session has a runner |
| ChatThreads.LossExactly | packages/edge-worker/src/ChatSessionHandler.ts:608-650 | an event is lost by exactly two kinds of step, ignored as it comes or given up on the way to its turn; no result loses one |
| ChatThreads.EndsExactly | packages/edge-worker/src/ChatSessionHandler.ts:608-726 | an event is acknowledged by exactly the step that posts the reply to its result, or fails to, and discarded by exactly a rejected start in its session |
| ChatThreads.FollowupsWait | packages/edge-worker/src/ChatSessionHandler.ts:668-696 | a waiting follow-up is scheduled exactly when a turn of its thread's current session ends; a runner's failure leaves it waiting |
| ChatThreads.RepliesAddressed | packages/edge-worker/src/ChatSessionHandler.ts:619-626 | in every run a reply is posted into the thread its session was created for |
| ChatPrompts.RunSane | packages/edge-worker/src/ChatSessionHandler.ts:189-726 | in every run no event waiting to be taken up has a prompt given or on the way; every reachable state meets what the next theorems ask for |
| ChatAnswers.AnswerableExactly | packages/edge-worker/src/ChatSessionHandler.ts:189-726 | from every reachable moment, some future acknowledges an event if and only if it is not lost, discarded, or queued for a reply in a session that no result can reach any more |
| ChatAnswers.HeardExactly | packages/edge-worker/src/ChatSessionHandler.ts:207-236 | from every reachable moment, every future acknowledges an event only after its prompt was given if and only if it has been given by now or the event is on the way to a turn of its own, lost, discarded or stranded: the result of the turn before can overtake every other |
| ChatAnswers.NeverHeardExactly | packages/edge-worker/src/ChatSessionHandler.ts:216-226 | an event taken up and not heard stays unheard in every future if and only if its prompt is not on the way to a runner that still runs |
| ChatExamples.UnheardExample | packages/edge-worker/src/ChatSessionHandler.ts:216-226 | a run in which an event is acknowledged and is never heard in any future |
| ChatExamples.StrandedExample | packages/edge-worker/src/ChatSessionHandler.ts:207-324 | a run after which no future acknowledges a queued event, whose session's runner ended before it told a session id |
| TokenCache.GitHubTokenStore.SaveTokens | packages/core/src/github-token-store.ts:118-136 | the file is replaced and the cache emptied |
| TokenCache.GitHubTokenStore.LoadTokens | packages/core/src/github-token-store.ts:142-177 | the cached tokens under an unchanged stamp, else the file's |
| TokenCache.StepCoherent | packages/core/src/github-token-store.ts:118-177 | own saves and loads keep the cache coherent; another's write does if and only if it brings no other tokens under the cached stamp, unless a load that is under way reads them |
| TokenCache.SavedIsLoaded | packages/core/src/github-token-store.ts:118-177 | whatever came before, every load after a save gives the tokens saved until somebody writes |
| TokenCache.LoadsTrueExactly | packages/core/src/github-token-store.ts:118-177 | for every interleaving, loads return what the file holds at every moment if and only if no other writer ever brings other tokens under the stamp cached at that moment |
| TokenCache.LoadReplaced | packages/core/src/github-token-store.ts:142-177 | a load during which the file is replaced returns the old content or the new, and the load after it the new, unless the writer goes unnoticed |
| TokenCache.LoadsTrue | packages/core/src/github-token-store.ts:118-177 | in particular loads are true as long as other writers bring back no stamp |
| TokenCache.StaleExample | packages/core/src/github-token-store.ts:151-157 | a stamp brought back makes a load return tokens no longer in the file |
| ConfigReload.Repositories.DetectRepositoryChanges | packages/edge-worker/src/ConfigManager.ts:437-471 | the three lists of the diff |
| ConfigReload.Repositories.ApplyChanges | packages/edge-worker/src/EdgeWorker.ts:3915-4089 | removed, then updated, then added, with paths resolved; inactive new ones and those whose paths cannot be resolved are skipped |
| ConfigReload.FileMapExactly | packages/edge-worker/src/ConfigManager.ts:442-445 | of the repositories declared with one id the last counts, and no other id is known |
| ConfigReload.DetectedExactly | packages/edge-worker/src/ConfigManager.ts:437-471 | added are reported the ids declared and not held, removed those held and not declared, and modified those held with another text than the last one declared |
| ConfigReload.AddedById | packages/edge-worker/src/ConfigManager.ts:452-462 | added are exactly the file's repositories that the map lacks |
| ConfigReload.ModifiedById | packages/edge-worker/src/ConfigManager.ts:452-462 | modified are exactly those whose text differs |
| ConfigReload.RemovedById | packages/edge-worker/src/ConfigManager.ts:464-469 | removed are exactly those the file lacks |
| ConfigReload.ReloadById | packages/edge-worker/src/EdgeWorker.ts:3915-4089 | what each repository is after a reload, also where resolving its paths throws |
| ConfigReload.QuietExactly | packages/edge-worker/src/ConfigManager.ts:437-471 | a reload reports nothing if and only if map and file agree on every id |
| ConfigReload.ReloadSettles | packages/edge-worker/src/EdgeWorker.ts:3915-4000 | after a reload the same file reports no repository if and only if each added or changed repository's paths resolve, and to themselves, and no added one is inactive |
| ConfigReload.ReloadTwice | packages/edge-worker/src/EdgeWorker.ts:3915-4000 | even so a second reload changes nothing |
| ConfigReload.DetectGlobalConfigChanges | packages/edge-worker/src/ConfigManager.ts:477-490 | whether a watched setting that is not exempt differs |
| ConfigReload.FileWins | packages/edge-worker/src/ConfigManager.ts:302-402 | a setting of the file wins over the one in memory as its rule says: if truthy, if there at all, or else the older name of the file's |
| ConfigReload.MemoryStays | packages/edge-worker/src/ConfigManager.ts:302-402 | a setting no rule speaks of stays as it is in memory |
| ConfigReload.ReloadGlobals | packages/edge-worker/src/ConfigManager.ts:302-402 | once the merged settings are in place the same file reports no global change, for every table of merge rules whose older names are plain values, as the source's are, older names included, and all settings |

## Left out

- Flushing to the device: a crash is the end of the process; the source calls no `fsync`, so what a power loss leaves of a renamed file is not modelled.
- Object key order: records keep insertion order; JavaScript moves integer-like keys to the front, which only matters where two entries collide.
- `JSON.parse` and `JSON.stringify`: the stripper is tied to a small tokenizer and parser whose atoms are not split further; saved documents and compared configurations are texts.
- Patterns with other regular-expression characters: only dots and stars are special in the model; the source would pass the others to the regular-expression engine unescaped.
- The egress proxy's sockets, certificates, SOCKS and HTTP handlers, and its subnet rules, which are not enforced.
- The projection of Codex items to tool names, inputs and results, and of Cursor tool calls, is taken as given data; it decides no order and no id.
- Errors thrown into the Cursor runner are taken to be `Error` objects; listeners for messages and completion do not throw.
- A tool result of the session's active `Task` is not looked up in the tool-call table; no Codex tool has that name, so the branch is not modelled.
- Activity formatting, markdown, loggers, spans and the task-subject caches.
- The order in which one session's messages are handled, which is the promise chain's (`MessageQueue`): to the chat handler, a result and the message that tells a session id come in any order.
- Threads whose deliveries share an event id: session ids of a chat platform are taken to be fresh.
- `cleanup` of old sessions in the manager, activity parents and child sessions: they touch neither the signal nor the locks.
- The mtime granularity of the token file: a stamp is any value, and the conditions say when it may repeat.
