# Verified model of the agent backend's core

The program is a multi-session AI agent backend. A session's history is compacted and cut to fit a model's
context window; turns call tools from a shared registry that is reloaded while turns are running; background
subagents talk to their parents through mailboxes and wake them; every task keeps a log of the file changes it
made. This project models the parts of it that carry state, concurrency or arithmetic, and proves what they
promise.

| file | part of the program |
|---|---|
| `Text.dfy` | trimming, splitting and sorting of strings |
| `SummaryMarkdown.dfy`, `SummaryRoundTrip.dfy` | compaction summaries as Markdown, printed and parsed back |
| `TokenBudget.dfy`, `Messages.dfy` | token estimates, and cutting a text to an estimate |
| `ContextWindow.dfy`, `WindowSelection.dfy` | blocks of a history, compaction cutoffs, what the model sees |
| `Compaction.dfy`, `SessionState.dfy`, `SessionRuns.dfy` | checkpoints, restoring and extending a session, and its whole life |
| `TaskRecorder.dfy` | folding file changes into one net change set |
| `Mailbox.dfy` | subagent mailboxes under commits of stale task snapshots |
| `ToolCatalog.dfy`, `ToolRegistry.dfy` | tools by source, and the flattened index |
| `TurnLeases.dfy`, `RuntimeRetirement.dfy`, `RuntimeSafety.dfy` | snapshots of the catalog, reloads, and when old clients are closed |
| `RuntimeRefinement.dfy` | the registry's and the manager's methods as steps of that transition system |
| `ToolNames.dfy`, `McpReload.dfy` | distinct short tool names, and the reload of MCP servers |
| `SessionLock.dfy` | the reference-counted lock of each session |
| `PendingInput.dfy`, `ParentTurn.dfy` | inputs queued for a session, the parent turn that consumes them, and the agent loop inside it that consumes them too |
| `PendingDelivery.dfy`, `PendingOrder.dfy`, `PendingRuns.dfy` | arrivals at any moment of such turns: where every input is, and in which order |
| `PendingRefinement.dfy` | the queue's methods as steps of that transition system |
| `ParentWakeups.dfy` | the worker that runs a parent's turns |
| `Continuations.dfy` | pausing and resuming background turns |
| `BackgroundEvents.dfy` | fan-out of turn events to subscribers |
| `PendingRequests.dfy` | the table of pending MCP requests |
| `SkillCatalog.dfy` | the cached skill list and its invalidation |

## How it is modelled

Code that changes things step by step is a class or a method with loops, proved against functions of the old
state. Where several goroutines meet, the same functions are the steps of a transition system: every part of the
source that runs under one mutex, and every channel operation, is one atomic step, program counters say where each
goroutine stands, and the steps interleave in every order. The theorems are about every state of every run. The
methods of the registry, the MCP manager, the pending queue and the session are proved to take these steps
(`RuntimeRefinement`, `PendingRefinement`, `SessionRuns`).

Time, generated identities, hashes, JSON decoding, the file system, started processes, and whether a store, a model
or an acknowledgement succeeds are parameters or free choices of the environment. Text is a sequence of characters;
where the source counts bytes of text that is known to be ASCII (tool names) that is the same thing. Integers are
unbounded; where a bound matters (numbers behind tool names) it is a precondition.

Several documented promises turned out to need a condition. Each is stated as an equivalence, with an input on the
failing side:

- what was printed as Markdown is parsed back (`SummaryRoundTrip.RoundTrip`, `SummaryRoundTrip.BulletedItemChanges`);
- no block begins with a tool result (`ContextWindow.ResultInTurnOpensBlock`, `ContextWindow.ResultOpensBlock`,
  `ContextWindow.GeneratedAnswerOpensBlock`);
- history left out of the window is represented by a summary (`WindowSelection.LeftOutIsSummarized`,
  `SessionState.SnapshotRepresentsHistory`, `WindowSelection.BlankSummaryLosesHistory`);
- an append keeps summary and checkpoint valid (`SessionState.Session.AppendMessage`,
  `Compaction.MatchesAfterAppend`, `SessionState.OverlongCheckpoint`);
- reloaded tools are visible (`McpReload.VisibleUnlessOvertaken`, `McpReload.LateToolOvertakes`);
- a stored summary stays valid over the life of a session (`SessionRuns.RunIsValid`, `SessionRuns.OwnRunIsValid`);
- a drained input is acknowledged or queued again (`ParentTurn.ContinuePending`, `ParentTurn.Generate`,
  `PendingRuns.OnlyOverflowDrops`, `ParentTurn.FullQueueLosesMessage`);
- the queue keeps the order of acceptance (`PendingRuns.OrderIsKept`, `ParentTurn.RefusedInputsTurnAround`,
  `PendingRuns.RefusedInputsTurnAround`);
- a pause lasts until an explicit resume (`Continuations.PauseEnds`, `Continuations.FailedPauseIsForgotten`).

## Model

| member | source | states |
|---|---|---|
| SummaryMarkdown.RenderMarkdown | core/domain/compaction/checkpoint.go:243-275 | the printed document is the nine sections in their fixed order, a placeholder bullet for each empty one, trimmed at both ends |
| SummaryMarkdown.ParseSummary | core/domain/compaction/checkpoint.go:333-376 | the loop over lines with a current section computes the fold of one line step, over any text |
| SummaryMarkdown.ParseIgnoresOuterSpace | core/domain/compaction/checkpoint.go:333-376 | white space around a document does not change what is parsed, so printing may trim it |
| SummaryRoundTrip.ParseIsPlain | core/domain/compaction/checkpoint.go:333-387 | whatever is parsed has only trimmed, non-empty, single-line items and goal lines |
| SummaryRoundTrip.MergedSection | core/domain/compaction/checkpoint.go:258-269 | two lists printed into one section and told apart by a marker come back exactly when every item is faithful and carries the marker of its own list |
| SummaryRoundTrip.GoalSection | core/domain/compaction/checkpoint.go:247-256 | the goal comes back exactly when none of its lines reads as a heading, a bullet or the placeholder |
| SummaryRoundTrip.RoundTrip | core/domain/compaction/checkpoint.go:243-275 | for every summary: parsing what was printed returns it if and only if it is well formed |
| SummaryRoundTrip.BulletedItemChanges | core/domain/compaction/checkpoint.go:342-345 | a summary with a decision that begins like a bullet does not come back |
| SummaryMarkdown.BulletsAreAlike | core/domain/compaction/checkpoint.go:342-345 | any run of dashes, stars and spaces in front of an item is dropped, and the item is filed under the current section |
| SummaryMarkdown.MarkersDecide | core/domain/compaction/checkpoint.go:347-375 | in the two shared sections a line is told apart by the Chinese or English marker it begins with |
| SummaryRoundTrip.HeadingsDecide | core/domain/compaction/checkpoint.go:333-376 | a document of one title, written out, and one item has that item in the field of the title, for all nine titles |
| SummaryRoundTrip.ItemsAreTidied | core/domain/compaction/checkpoint.go:243-275 | whatever its items are, a section shows those that are not blank, trimmed, on a line each |
| SummaryRoundTrip.EmptySectionsSaySo | core/domain/compaction/checkpoint.go:243-275 | the placeholder line occurs if and only if one of the nine sections has nothing to show |
| TokenBudget.EstimateTextTokens | core/contextmgr/context.go:538-563 | the counting loop computes the estimate |
| TokenBudget.EstimateIsCounts | core/contextmgr/context.go:538-563 | the estimate is the ASCII characters that are not white space over four, rounded up, plus the others: the trim and the minimum of one token change nothing |
| TokenBudget.EstimateSplits | core/contextmgr/context.go:538-563 | a piece of a text never costs more than the text, and the pieces together never less |
| TokenBudget.RepeatedCosts | core/contextmgr/context.go:538-563 | what any number of copies of one character costs: nothing for white space, a token for every four in ASCII, and one each beyond it |
| TokenBudget.TruncatePrefix | core/contextmgr/context.go:458-470 | the binary search returns the longest prefix within the budget |
| TokenBudget.TruncateSuffix | core/contextmgr/context.go:472-484 | the binary search returns the longest suffix within the budget |
| TokenBudget.TruncateTextToTokens | core/contextmgr/context.go:439-456 | the result is the text, a prefix, or head, marker and tail, as the budget demands, for every budget including negative ones |
| TokenBudget.DisjointPieces | core/contextmgr/context.go:439-456 | head and tail of a cut text do not overlap |
| TokenBudget.TruncationFits | core/contextmgr/context.go:439-456 | a cut text estimates to at most its budget |
| TokenBudget.TruncationUnique | core/contextmgr/context.go:439-456 | a text and a budget have only one truncation |
| TokenBudget.TruncationKeepsContent | core/contextmgr/context.go:439-456 | a text with content keeps some when cut to one token or more |
| TokenBudget.RoomIsShared | core/contextmgr/context.go:439-456 | a text of characters that cost one token each is cut to three fifths of the room next to the marker in front, and the rest of it behind |
| Messages.TokensAdd | core/contextmgr/context.go:266-276 | the estimate of a history is the sum over its pieces |
| Messages.TextIsCounted | core/contextmgr/context.go:266-276 | every text a message carries, in a part, a call or a result, is paid for, next to its reasoning |
| Messages.SummaryIsCarried | core/domain/message/message.go:207-213 | the message that stands for a summary is one marked text of the user that ends in the whole trimmed summary |
| Messages.EstimateMessagesTokens | core/contextmgr/context.go:266-276 | the loop over messages and parts computes that estimate |
| ContextWindow.MessageChunks | core/contextmgr/context.go:396-423 | the nested loops cut a history into its blocks |
| ContextWindow.ChunksPartition | core/contextmgr/context.go:396-423 | the blocks are not empty and concatenate, in order, to the history |
| ContextWindow.ChunksShifted | core/contextmgr/context.go:396-423 | grouping again from a block boundary gives exactly the remaining blocks |
| ContextWindow.ChunksStable | core/contextmgr/context.go:396-423 | appending messages changes no block but the last |
| ContextWindow.TurnsOpenBlocks | core/contextmgr/context.go:396-423 | from the beginning of a turn on, in any history, a block begins exactly with generated context or a person's message that has no generated context directly in front of it |
| ContextWindow.BlocksBegin | core/contextmgr/context.go:396-423 | every block of a history whose tool results follow their calls: before the first turn each message but a tool result begins one, afterwards it goes by turns |
| ContextWindow.ResultInTurnOpensBlock | core/contextmgr/context.go:396-423 | from the beginning of a turn on, in any history, a tool result begins a block if and only if it is marked as generated context (other than turn context) and the message in front of it is not |
| ContextWindow.ResultOpensBlock | core/contextmgr/context.go:396-423 | the same from any first message, for histories whose tool results follow their calls: a result begins a block if and only if it is so marked, its predecessor is not, and a turn has begun before it |
| ContextWindow.BoundaryNeverSplitsAnswers | core/contextmgr/context.go:396-423 | when tool results follow their calls, no block begins with one if and only if none is split off by its marking |
| ContextWindow.GeneratedAnswerOpensBlock | core/contextmgr/context.go:396-423 | a history with paired calls in which a tool result marked as generated context does open a block |
| ContextWindow.CompactSplit | core/contextmgr/context.go:131-154 | the cutoff lies behind all blocks but the ones to keep, eight unless told otherwise; old and recent messages are what lies between the previous cutoff and the new one, and behind it; nothing is old exactly when there are no more blocks than are kept, and otherwise exactly that many stay |
| ContextWindow.CompactionIsSafe | core/contextmgr/context.go:131-173 | in every run of appends and compactions cutoffs never decrease and lie at block boundaries, and when tool results follow their calls the first message kept is a tool result if and only if its marking splits it off |
| WindowSelection.SelectNewest | core/contextmgr/context.go:211-232 | the backward loop selects the longest run of newest blocks that fits the budget next to the base, but at least one block |
| WindowSelection.AnalyzePrepared | core/contextmgr/context.go:200-248 | the reported selection, its token count and the truncation flag are those of that window; next to what is reserved it fits the window, and one block more would not |
| WindowSelection.WindowUnique | core/contextmgr/context.go:200-248 | a budget and a grouping have only one such window |
| WindowSelection.Truncation | core/contextmgr/context.go:200-248 | blocks are left out if and only if there are several and base and recent messages exceed the budget; a single block is selected whatever it costs |
| WindowSelection.BuildBaseAndRecent | core/contextmgr/context.go:175-198 | the base is the system message, the text of every fixed item that is not blank, in order, and a message that ends in the shortened summary; the recent messages are those behind the cutoff |
| WindowSelection.FixedPartIsTexts | core/contextmgr/context.go:180-185 | the fixed context is one system message for each item that is not blank, in order, with its trimmed text |
| WindowSelection.LeftOutIsSummarized | core/contextmgr/context.go:175-198 | history that is neither in the base nor selectable is represented by a message of the base that carries the summary's text if and only if the summary is not blank or nothing behind the first message is compacted |
| WindowSelection.BlankSummaryLosesHistory | core/contextmgr/context.go:192-197 | a history that disappears behind a blank summary |
| WindowSelection.SelectionKeepsAnswersPaired | core/contextmgr/context.go:200-248 | after any run of compactions every tool result the model sees has its call or another result in front of it if and only if the first selected message is not one split off by its marking |
| Compaction.SourceHashStable | core/contextmgr/context.go:324-345 | the fingerprint of a prefix inside the history survives every append |
| Compaction.SourceHashSeesContent | core/contextmgr/context.go:324-345 | fingerprints do not depend on the identity or time of messages |
| Compaction.FingerprintsTellApart | core/contextmgr/context.go:324-345 | when hashes tell contents apart, two prefixes of one length have the same fingerprint if and only if their messages have the same contents and sources |
| Compaction.SourceHashAfterAppend | core/contextmgr/context.go:324-345 | a fingerprint in use stays right after an append if and only if its prefix is inside the history or the fingerprints collide |
| Compaction.MatchesAfterAppend | core/contextmgr/context.go:350-378 | a matching checkpoint still matches after an append if and only if it is blank, not a legacy one, without a hash, or ends within the history, or the fingerprints collide |
| SessionState.NormalizedIsIncreasing | core/session/Session.go:241-268 | restored messages keep their content and get strictly increasing positive sequence numbers |
| SessionState.NormalizedIdentifies | core/session/Session.go:241-268 | each restored message keeps the id, time and number it has, if the number is above the one before, and gets the stable id, its time or its position where they are missing |
| SessionState.NormalizeMetadata | core/session/Session.go:241-268 | the loop computes that normalization |
| SessionState.IdentifiedUnchanged | core/session/Session.go:241-268 | messages that have their identity already are not changed |
| SessionState.Session.FromState | core/session/initial_state.go:42-114 | from any mix of legacy and version-1 fields: what is restored, that a summary in use carries the hash of the prefix it replaces, that a checkpoint kept matches the history and that sequences increase; a record in order is taken over unchanged, also when its messages still have to be given an identity |
| SessionState.Session.AppendMessage | core/session/Session.go:195-216 | appends one message under a greater sequence number; summary and checkpoint stay valid if and only if the prefix of a summary in use and the end of a legacy checkpoint with a hash are inside the history, or the fingerprints collide |
| SessionState.Session.Clear | core/session/Session.go:229-239 | leaves one system message and no trace of a summary |
| SessionState.DigestAfterAppend | core/session/Session.go:195-216 | the same for any history and any summary, count, hash and checkpoint that fit it |
| SessionState.OverlongCheckpoint | core/session/initial_state.go:66-111 | two stored records with a legacy checkpoint that reaches beyond the history: restored as valid sessions, one with and one without a summary in use, that the next message invalidates |
| SessionState.CheckpointRestores | core/session/initial_state.go:66-111 | a record with only a version-1 checkpoint gets its summary, count and fingerprint back if and only if the fingerprint, without white space around it, is that of a prefix of the history |
| SessionState.LegacyRestores | core/session/initial_state.go:66-111 | a legacy checkpoint without a fingerprint comes back with that of its prefix, or not at all when the prefix is not there |
| SessionState.OldRestores | core/session/initial_state.go:66-111 | a summary stored without a checkpoint is kept, with the fingerprint of its prefix, unless it carries the fingerprint of something else |
| SessionState.DisplayCompactedMessages | core/contextmgr/context.go:250-264 | the loop counts the replaced messages that nobody generated, except the system message in front |
| SessionState.BuildSnapshot | core/contextmgr/context.go:69-97 | the selection is the window over base and recent messages, with the summary of a checkpoint that matches, shortened to a quarter of the window within 256 and 1024 tokens, whole when it fits; a message of the selection carries its text; a checkpoint that does not match is ignored together with its count |
| SessionState.SummaryKept | core/contextmgr/context.go:425-435 | shortening a summary to its share of the window neither loses nor invents one |
| SessionState.SnapshotRepresentsHistory | core/contextmgr/context.go:69-97 | what the snapshot leaves out is represented by a message that carries the summary's text if and only if the checkpoint's summary is not blank or nothing behind the first message is compacted |
| SessionRuns.CompactSession | core/application/chat/compaction/service/compact_service.go:30-72 | from where a compaction starts, when it succeeds, and what summary, count, hash and checkpoint it leaves; a failed one leaves everything as it was |
| SessionRuns.CompactionSucceeds | core/application/chat/compaction/service/compact_service.go:30-72 | a summary is taken if and only if more blocks than are kept lie behind the place where compaction starts and the summary is of the right form |
| SessionRuns.CompactionAdvances | core/application/chat/compaction/service/compact_service.go:30-72 | a successful compaction of a valid session replaces more than was replaced before and keeps some messages |
| SessionRuns.SummaryOnlyGrows | core/application/chat/compaction/service/compact_service.go:30-72 | in every run over records the program wrote, until a clearing or a load, a summary in use is only ever replaced by one that stands for more of the history |
| SessionRuns.RestartRefines | core/session/initial_state.go:42-114 | a session restored from what another holds is in the state that the restart step of the runs leads to |
| SessionRuns.CompactRefines | core/application/chat/compaction/service/compact_service.go:30-72 | compacting a session takes the compaction step of the runs |
| SessionRuns.AppendRefines | core/session/Session.go:195-216 | appending to a session takes the append step of the runs, under a number that the step allows |
| SessionRuns.ClearRefines | core/session/Session.go:229-239 | clearing a session takes the clearing step of the runs |
| SessionRuns.RunIsValid | core/session/Session.go:195-239 | from any record, through any appends, compactions, clearings, restarts and further loads: the session is valid throughout if and only if what it held survived every append |
| SessionRuns.OwnRunIsValid | core/session/initial_state.go:42-114 | over records the program wrote itself every state of every run is valid, a summary in use stands for a prefix inside the history, and a restart changes nothing about it |
| TaskRecorder.WorkspaceLog.AddChange | core/history/task_recorder.go:299-330 | keeps the first before and time and the last after of a path and drops the entry when before and after are the same |
| TaskRecorder.WorkspaceLog.RecordFileChange | core/history/task_recorder.go:212-244 | a file that did not change is not recorded; one that did is, as added, deleted or modified |
| TaskRecorder.WorkspaceLog.RecordWorkspaceChanges | core/history/task_recorder.go:253-297 | the two loops record a whole step of the workspace, each differing path once |
| TaskRecorder.WorkspaceLog.OrderedTaskChanges | core/history/task_recorder.go:332-351 | lists every net change once, in the order its path was first touched |
| TaskRecorder.WorkspaceLog.Save | core/history/task_recorder.go:120-170 | hands the change set to the store once; a store that fails leaves the recorder saved, with nothing for a second call |
| TaskRecorder.RecordingComposes | core/history/task_recorder.go:253-330 | recording b to c on top of the difference from a to b yields the difference from a to c |
| TaskRecorder.FileStep | core/history/task_recorder.go:212-244 | recording one file is recording a step in which nothing else changes |
| TaskRecorder.FoldedIsNet | core/history/task_recorder.go:253-330 | after any number of steps the log is the difference between the first and the current state |
| TaskRecorder.NetIsUnique | core/history/snapshot_service.go:132-154 | two logs of one difference agree on paths, kinds of change and contents |
| TaskRecorder.ChangedSeesContents | core/history/snapshot_service.go:132-142 | when fingerprints tell contents apart, two snapshots of a file differ if and only if its contents or its existence do |
| TaskRecorder.NetTypes | core/history/snapshot_service.go:145-154 | an entry is added, deleted or modified as the file exists before and after |
| TaskRecorder.NetSeesContents | core/history/task_recorder.go:253-330 | a net change set has an entry for exactly the paths whose contents differ between the two disks |
| TaskRecorder.NetAppliesTo | core/history/snapshot_service.go:132-154 | applied to the old disk it gives the contents of the new one at every path, reversed those of the old one |
| TaskRecorder.LogRestoresContents | core/history/task_recorder.go:253-330 | after any number of recorded steps the log leads from the contents of the first disk to those of the current one, and back |
| TaskRecorder.NetApplies | core/history/snapshot_service.go:132-154 | applying the changes to the old state gives the new one, and reversing them gives the old one |
| Mailbox.Task.EnqueueMessage | core/domain/subagent/task.go:94-147 | appends a valid message once, within 64 messages and 100000 characters, to a task that is queued, running or waiting for its subagents; a message that repeats the first one under its id is accepted without a second entry, and each refusal leaves the task alone and has the reason it gives |
| Mailbox.Task.ClaimMailboxMessage | core/domain/subagent/task.go:149-166 | marks the first pending message as delivered to nobody else |
| Mailbox.Task.AcknowledgeMailboxMessage | core/domain/subagent/task.go:168-181 | removes the first message in delivery under that id and nothing else |
| Mailbox.Task.ReleaseMailboxMessage | core/domain/subagent/task.go:183-202 | returns a message in delivery to its place as pending, with its attempts counted and the trimmed error |
| Mailbox.Task.RecoverMailboxDeliveries | core/domain/subagent/task.go:204-225 | returns every message in delivery to pending and changes nothing else |
| Mailbox.Task.MarkRunning | core/domain/subagent/task.go:289-300 | only a queued task starts |
| Mailbox.Task.MarkSucceeded | core/domain/subagent/task.go:302-317 | only a running task with an empty mailbox succeeds |
| Mailbox.Task.MarkEnded | core/domain/subagent/task.go:319-341 | an ended task does not end again |
| Mailbox.CommitKeeps | core/port/subagent/repository.go:71-89 | writing back a transition computed on any older snapshot loses no message and leaves no wrong status |
| Mailbox.CommitIsTaken | core/port/subagent/repository.go:71-89 | exactly these commits are taken: of the run the record carries or to queue an ended task again, leaving a canceled task canceled and other ends only for queued, and success only over an empty mailbox |
| Mailbox.CommitNeedsItsRun | core/port/subagent/repository.go:75-77 | a commit that changes the record is of the run it carries, or it carries none, or it is an ended task queued again |
| Mailbox.OwnerCommits | core/port/subagent/repository.go:71-89 | the run that holds an open task sets status and run as it wishes, except success over messages still in the mailbox |
| Mailbox.HoldsItsTask | core/port/subagent/repository.go:71-89 | in every run, while a run holds a task that has not ended, commits of other runs and mailbox operations leave its status and run alone |
| Mailbox.ApplyKeeps | core/domain/subagent/task.go:94-237 | no mailbox operation and no commit breaks the invariant |
| Mailbox.MailboxIsReliable | core/domain/subagent/task.go:94-237 | in every run every accepted message is in the mailbox, unchanged and in order of acceptance, or was acknowledged after a claim; both bounds hold; success implies an empty mailbox |
| Mailbox.EndsAreFinal | core/port/subagent/repository.go:71-89 | a canceled task stays canceled, other ended tasks are left only by being queued again |
| Mailbox.OnlyAcknowledgementsRemove | core/domain/subagent/task.go:168-181 | a message leaves the mailbox exactly when it is the first in delivery under an acknowledged id |
| ToolCatalog.LookupIsOwner | core/tool/register.go:255-279 | a scan finds exactly the owner of a name: the local source first, then the smallest source name that holds it |
| Text.LessIs | core/tool/register.go:327-337 | the order of source names: the first difference decides, and a proper prefix comes first |
| ToolCatalog.FlatUnique | core/tool/register.go:290-325 | sources determine their index and list, whatever was there before |
| ToolCatalog.OperationsKeepNames | core/tool/register.go:144-253 | no operation files a tool under a name that is not its own |
| ToolCatalog.UnregisteredRemoves | core/tool/register.go:144-158 | a source is registered afterwards if and only if it was, or is the local one, and is not among the names, the empty name standing for the local source; what stays keeps its tools |
| ToolCatalog.ReplacedReplaces | core/tool/register.go:228-253 | afterwards the added sources hold what the snapshot holds under them, the removed ones are gone, and the others are as they were |
| ToolCatalog.RegisteredRegisters | core/tool/register.go:109-127 | the source holds exactly the given tools, under their own names, of each name the last; no other source changes |
| ToolRegistry.RegisterTools.Register | core/tool/register.go:96-107 | adds to the local source and keeps the index the flattening of the sources |
| ToolRegistry.RegisterTools.RegisterSource | core/tool/register.go:109-127 | replaces one source, later tools of a name winning |
| ToolRegistry.RegisterTools.UnregisterSources | core/tool/register.go:144-158 | a source is registered afterwards if and only if it was and is not named; what stays keeps its tools |
| ToolRegistry.RegisterTools.CloneExcludingSources | core/tool/register.go:199-223 | a fresh registry with the other sources and its own index |
| ToolRegistry.RegisterTools.ReplaceSources | core/tool/register.go:228-253 | removes and takes over sources in one update |
| ToolRegistry.RegisterTools.GetTool | core/tool/register.go:255-279 | the fast path returns what the scan over all sources returns |
| ToolRegistry.RegisterTools.Rebuild | core/tool/register.go:290-325 | the loops list every name once, local first, then sources and names in order |
| ToolRegistry.RegisterTools.Snapshot | core/tool/register.go:24-33 | a private copy that is counted as out |
| ToolRegistry.RegisterTools.BeginRelease | core/tool/register.go:34-40 | the locked part of a release takes the callbacks and the lease |
| ToolRegistry.RegisterTools.RunCallback | core/tool/register.go:58-63 | counts a retirement down; the last callback cleans up |
| ToolRegistry.RegisterTools.Retire | core/tool/register.go:51-65 | every snapshot that is out, and no other, holds up the cleanup; with none out it is due at once |
| TurnLeases.ReportKeeps | core/tool/register.go:40-45 | running the callbacks of several releases in any order keeps the counters exact |
| TurnLeases.CleanupIsExact | core/tool/register.go:24-65 | a cleanup ran at most once, never while a snapshot it waits for is out, and by the time none is out or reporting |
| RuntimeRetirement.ApplyKeeps | core/mcp/manager.go:139-219 | no step of snapshots, releases, reloads and closings of any number of managers breaks the invariant |
| RuntimeSafety.NoClosedClientIsReachable | core/mcp/manager.go:139-219 | in every state of every interleaving no live catalog and no snapshot that is out holds a tool of a closed client |
| RuntimeSafety.CleanupRunsOnce | core/plugin/manager.go:181-198 | each retirement is cleaned up at most once, exactly when no snapshot taken before its publication is out or still reporting |
| RuntimeSafety.WaitsForEarlierSnapshots | core/tool/register.go:49-65 | for the rest of every run a retirement waits for exactly the snapshots that were out when it was registered |
| RuntimeSafety.PublicationIsAtomicForTurns | core/tool/register.go:67-73 | between a publication and the registration of its retirement no snapshot is taken and none is given back |
| RuntimeSafety.SnapshotIsKept | core/tool/register.go:22-33 | in every run a snapshot has, for as long as the run goes on, the sources of the moment it was taken, tool by tool |
| RuntimeRefinement.CloseRefines | core/mcp/manager.go:190-219 | closing a manager on a real registry is the steps of a close; the clients it closes are those closed in that state, and no tool that is still registered belongs to one of them |
| RuntimeRefinement.ReloadRefines | core/mcp/manager.go:138-160 | a successful reload is the steps prepare, publish and retire, a failed one none; no registered tool belongs to a closed client |
| RuntimeRefinement.SnapshotRefines | core/tool/register.go:24-33 | the copy a turn gets is the one the state pins for it |
| RuntimeRefinement.RegisterRefines | core/tool/register.go:96-107 | registering a local tool is that step of the runs |
| RuntimeRefinement.RegisterSourceRefines | core/tool/register.go:109-127 | a component that replaces its source takes the step of the runs |
| RuntimeRefinement.BeginReleaseRefines | core/tool/register.go:34-40 | the locked part of a release takes the step of the runs, with the callbacks that are left to run |
| RuntimeRefinement.RunCallbackRefines | core/tool/register.go:58-63 | a callback takes the step of the runs, and closes clients exactly when it is the last one awaited |
| ToolNames.DecimalHasValue | core/mcp/manager.go:175 | different numbers have different suffixes |
| ToolNames.CandidatesDiffer | core/mcp/manager.go:175-181 | different numbers give different candidates, although long bases are cut |
| ToolNames.NumbersRunOut | core/mcp/manager.go:174-187 | no more numbers in a row can be taken than there are names |
| ToolNames.UniqueToolName | core/mcp/manager.go:162-188 | the search ends; the name is new, is the base when that is free, and otherwise carries the smallest free number from 2, and the table records it |
| ToolNames.SanitizeFixesParts | core/mcp/tool.go:103-112 | sanitizing changes nothing exactly when a part is short, allowed and clean at both ends, so it is idempotent |
| ToolNames.ExposedIsToolName | core/mcp/tool.go:91-101 | every exposed name starts with mcp_, has at most 61 characters and only allowed ones |
| ToolNames.ExposedNamesParts | core/mcp/tool.go:91-101 | clean parts appear as they are, the server's in front of the tool's, with stand-ins for empty ones |
| ToolNames.RunBecomesOne | core/mcp/tool.go:103-112 | a whole run of characters that are not allowed becomes one underscore |
| ToolNames.AllowedStay | core/mcp/tool.go:103-112 | allowed characters in front of the rest stay as they are |
| ToolNames.CandidateIs | core/mcp/manager.go:175-181 | a numbered name is the base, cut to what fits in 64 characters and cleared of separators at its ends, an underscore and the number |
| ToolNames.CandidateIsToolName | core/mcp/manager.go:175-181 | a number keeps a name within 64 allowed characters |
| McpReload.CheckNames | core/mcp/manager.go:57-64 | accepts exactly the configurations whose trimmed server names are not empty and differ |
| McpReload.Wrap | core/mcp/manager.go:118-128 | every announced tool with a non-blank name gets a name of its own, unused before |
| McpReload.VisibleAre | core/mcp/manager.go:118-128 | announced tools with a blank name are left out, and no others |
| McpReload.ServedNamesFit | core/mcp/manager.go:118-128 | every such name is accepted by model APIs |
| McpReload.Prepare | core/mcp/manager.go:75-137 | all servers stand ready with distinct new names, or the first that blocks closes every process started so far |
| McpReload.PublicationResolves | core/mcp/manager.go:139-147 | after the publication every prepared tool is what its name stands for, and every other name stands for what it did among the kept sources |
| McpReload.VisibleUnlessOvertaken | core/mcp/manager.go:69-75 | when others registered tools in between, a prepared tool owns its name if and only if no source they filled under it comes first |
| McpReload.LateToolOvertakes | core/mcp/manager.go:69-75 | a local tool registered under the same name between the private copy and the publication hides the published one |
| McpReload.Manager.Reload | core/mcp/manager.go:36-160 | all or nothing: it fails exactly when a name is bad, the request was canceled, or a server that is on has no command or, being required or replacing others, does not start; a failed reload changes neither registry nor manager and leaks no process; a successful one has a runtime for exactly the servers that started, under their names behind the prefix, publishes all tools, none shadowing another, and accounts for every process |
| McpReload.Manager.Publish | core/mcp/manager.go:141-159 | the locked part: sources, clients and retirement change together |
| McpReload.Manager.Close | core/mcp/manager.go:190-219 | takes exactly the manager's sources out, and closes its clients at once only when no snapshot is out |
| SessionLock.SessionsExclude | core/service/session_operation_coordinator.go:17-23 | calls for session ids that differ only in outer white space, or that both stand for the global key, exclude each other |
| SessionLock.Coordinator.Refer | core/service/session_operation_coordinator.go:69-88 | a key the context holds is not locked again; otherwise the entry is found or created and counted |
| SessionLock.Coordinator.Pass | core/service/session_operation_coordinator.go:90-95 | receiving from the gate takes its one token |
| SessionLock.Coordinator.GiveBack | core/service/session_operation_coordinator.go:96-99 | sending to the gate succeeds when it is empty |
| SessionLock.Coordinator.ReleaseReference | core/service/session_operation_coordinator.go:105-112 | the last reference deletes the entry, if it is still the current one |
| SessionLock.ApplyKeeps | core/service/session_operation_coordinator.go:69-112 | counts, tokens and the map stay exact under every step |
| SessionLock.MutualExclusion | core/service/session_operation_coordinator.go:69-112 | two calls that hold the lock of a key are the same call, although entries are deleted and created anew |
| SessionLock.UnlockNeverBlocks | core/service/session_operation_coordinator.go:96-99 | the gate has room for a holder's token |
| SessionLock.TableIsExact | core/service/session_operation_coordinator.go:105-112 | a key has an entry exactly while a call for it is unfinished, and the entry counts those calls |
| SessionLock.WaitingIsForSomebody | core/service/session_operation_coordinator.go:90-95 | a waiting call can pass exactly when nobody holds the lock of its key: no token is lost |
| SessionLock.CallsCanEnd | core/service/session_operation_coordinator.go:89-103 | in every run a holder can unlock, a waiting call can be canceled, and after either its reference can be released |
| SessionLock.NeverWaitsForItself | core/service/session_operation_coordinator.go:41-49 | a call made inside others never waits for a lock they took |
| PendingInput.Queue.Enqueue | core/adapter/chat/pendinginput/queue.go:85-130 | an input enters, at the end, if and only if it is proper, there is room, and its id is neither queued nor in flight; it is accepted if and only if it enters or is the very input queued or in flight under its id, outer white space included |
| PendingInput.Queue.DrainIdentified | core/adapter/chat/pendinginput/queue.go:151-174 | takes everything, in order, and remembers the identified inputs as in flight |
| PendingInput.Queue.RequeueIdentified | core/adapter/chat/pendinginput/queue.go:178-237 | drained inputs return to the front in their order exactly when all of them fit |
| PendingInput.Queue.Acknowledge | core/adapter/chat/pendinginput/queue.go:248-272 | an input stops being in flight only after the acknowledger has succeeded |
| ParentTurn.EnqueueAll | core/adapter/chat/pendinginput/queue.go:85-130 | any number of arrivals are admitted one after the other |
| ParentTurn.ContinuePending | core/service/chat.go:590-724 | for all arrivals, all rounds of the agent loop and every outcome of appending, generating, committing and acknowledging: which exit is taken, which inputs are acknowledged, what is queued afterwards in which order and what is in flight; nothing is acknowledged unless everything drained was appended, answered and committed, and after a failure all of it stands at the front of the queue, if there is room; every identified input that was drained is acknowledged or queued again if and only if what has to be queued again fits next to what the queue holds at that moment, after the loop |
| ParentTurn.SettledInOrder | core/application/chat/generation/service/agent_loop_service.go:330-346 | acknowledged and refused inputs are each in the order in which they were taken |
| ParentTurn.Generate | core/application/chat/generation/service/agent_loop_service.go:65-94 | the agent loop on the same queue: every identified input it took is acknowledged or queued again if and only if all it has to put back fits next to what is queued when its rounds are over; it leaves alone what the turn around it holds |
| ParentTurn.TakeAll | core/application/chat/generation/service/agent_loop_service.go:277-327 | in any rounds of arrivals and drains the loop takes exactly what is queued whenever its phase allows, in order, and all of it is in flight |
| ParentTurn.SettleAll | core/application/chat/generation/service/agent_loop_service.go:330-346 | identified inputs are acknowledged in order, and each one refused goes back to the front of the queue at once |
| ParentTurn.ReturnedIs | core/application/chat/generation/service/agent_loop_service.go:330-346 | inputs put back one by one end up in reverse order in front of the queue, the first ones that find room; the others are dropped |
| ParentTurn.AcknowledgeAll | core/service/chat.go:705-716 | exactly the identified inputs are acknowledged or collected as refused |
| ParentTurn.FullQueueLosesMessage | core/service/chat.go:698-701 | a failed turn over one queued input during which eight others arrive ends with that input neither acknowledged, nor queued, nor in flight |
| ParentTurn.TakenInputsMakeRoom | core/service/chat.go:703-722 | the same eight arrivals when the loop takes and settles them: the drained input whose acknowledgement fails is queued again |
| ParentTurn.RefusedInputsTurnAround | core/application/chat/generation/service/agent_loop_service.go:339-340 | a turn whose loop takes two inputs and can acknowledge neither leaves them queued in reverse order |
| PendingDelivery.ApplyKeeps | core/adapter/chat/pendinginput/queue.go:85-272 | arrivals, drains by turn and loop, failures of either, acknowledgements, batch and single requeues in any interleaving keep every input in one place and exactly the held ones in flight |
| PendingDelivery.HeldIsReturnable | core/adapter/chat/pendinginput/queue.go:192-228 | what the turn or its loop puts back, a batch or a single input, is never refused for a conflict |
| PendingDelivery.SettlingIs | core/service/chat.go:705-716 | settling one input: without an id it is done with, an identified one is acknowledged and no longer in flight, or refused and put back |
| PendingRuns.EveryInputIsAccountedFor | core/service/chat.go:619-724 | in every run each identified input ever accepted is in exactly one place, once: queued or held, acknowledged, or dropped; and between turns nothing is in flight |
| PendingRuns.OnlyOverflowDrops | core/adapter/chat/pendinginput/queue.go:229-231 | in every run inputs are dropped exactly when the turn or its loop puts back more than there is room for, and then exactly these |
| PendingRuns.OrderIsKept | core/application/chat/generation/service/agent_loop_service.go:330-346 | in every run the queue is in the order of acceptance throughout if and only if the loop never puts back an input while an earlier one of the same answer is in the queue again |
| PendingRuns.RefusedInputsTurnAround | core/application/chat/generation/service/agent_loop_service.go:330-346 | a run in which two inputs taken by the loop are refused and end up queued the wrong way round |
| PendingRefinement.ArriveRefines | core/adapter/chat/pendinginput/queue.go:85-130 | queueing an input takes the arrival step of the runs |
| PendingRefinement.DrainRefines | core/adapter/chat/pendinginput/queue.go:151-174 | draining takes the step of the turn or of its loop, and returns what was queued |
| PendingRefinement.RequeueRefines | core/adapter/chat/pendinginput/queue.go:178-237 | putting back what the turn or its loop holds takes the step of the runs, and fails exactly when that step drops it |
| PendingRefinement.AcknowledgeRefines | core/adapter/chat/pendinginput/queue.go:248-272 | acknowledging one input takes the settling step of the runs |
| ParentWakeups.WakeTable.Schedule | core/service/chat.go:172-193 | the first wake of a session starts its worker, later ones request another attempt |
| ParentWakeups.WakeTable.Check | core/service/chat.go:204-213 | a requested attempt is consumed, otherwise the worker leaves the table |
| ParentWakeups.WakesAreServed | core/service/chat.go:172-215 | in every run an attempt starts within three steps of the session's worker after each wake, and until it does the session has a worker that can take its next step |
| ParentWakeups.OneWorker | core/service/chat.go:169-171 | a session never has two workers |
| ParentWakeups.NoSpuriousAttempts | core/service/chat.go:195-215 | a session never sees more attempts than wakes |
| Continuations.Gate.Pause | core/service/chat_continuation.go:29-45 | sets the flag and cancels the registered turn even when the store fails |
| Continuations.Gate.Resume | core/service/chat_continuation.go:49-62 | stays paused unless the context is alive and the store succeeded |
| Continuations.Gate.Begin | core/service/chat_continuation.go:66-83 | registers the turn's cancel function only when neither flag nor durable control forbids it |
| Continuations.ApplyKeeps | core/service/chat_continuation.go:66-90 | at every moment the registered cancel function is that of the one turn in the session lock |
| Continuations.ClearsItsOwn | core/service/chat_continuation.go:84-89 | finishing takes back the finishing turn's own cancel function |
| Continuations.PauseHolds | core/service/chat_continuation.go:26-45 | from a pause until an explicit resume every registered turn is canceled and no turn begins, across restarts when the durable control took the pause |
| Continuations.PauseEnds | core/service/chat_continuation.go:26-82 | exactly when the last pause is over: a restart or a successful resume has cleared the flag, and the durable control was never paused or a resume has reached it, even one that reported a failure |
| Continuations.HeldUntilThen | core/service/chat_continuation.go:64-90 | until then no turn begins and every registered turn is canceled |
| Continuations.ResumeEndsPause | core/service/chat_continuation.go:47-62 | a run in which a background turn begins after a pause and an explicit resume |
| Continuations.FailedPauseIsForgotten | core/service/chat_continuation.go:41-44 | a run in which a background turn begins after a pause the store did not take and a restart |
| BackgroundEvents.Broadcaster.Subscribe | core/service/chat_background_events.go:29-42 | a new empty channel of 1 to 1024 places |
| BackgroundEvents.Broadcaster.Unsubscribe | core/service/chat_background_events.go:43-50 | closes a channel that is still subscribed, and none twice |
| BackgroundEvents.Broadcaster.Publish | core/service/chat_background_events.go:53-66 | in any order of subscribers: who has room gets the event, who has none is removed and closed |
| BackgroundEvents.Stream.Emit | core/service/chat_background_events.go:74-84 | numbers the event one higher than the last of its turn and publishes it under the last announced run |
| BackgroundEvents.NothingIsSkipped | core/service/chat_background_events.go:29-66 | in every run a subscriber has received the log from its subscription on without gaps, the rest waits in its channel while it is subscribed, and its channel is closed exactly once when it is not |
| BackgroundEvents.TurnsCount | core/service/chat_background_events.go:68-84 | the events of a turn are numbered 1, 2, 3 in published order |
| BackgroundEvents.ReceivedCounts | core/service/chat_background_events.go:13-14 | the events of a turn that a subscriber has received carry consecutive numbers |
| BackgroundEvents.EventsNameTheirRun | core/service/chat_background_events.go:68-84 | in every run an event names the run it announces or else that of its turn's event before it |
| BackgroundEvents.OnlyFullChannelsAreCutOff | core/service/chat_background_events.go:53-66 | a subscriber loses its subscription only by its own call or by an event for which its channel has no room |
| PendingRequests.Client.Register | core/mcp/client.go:258-263 | a fresh id with a fresh empty channel enters the table |
| PendingRequests.Client.TakePending | core/mcp/client.go:390-393 | the reader takes a channel out of the table at most once |
| PendingRequests.Client.FailPending | core/mcp/client.go:460-468 | every pending request is told and the table is empty; no send waits |
| PendingRequests.Client.MarkClosed | core/mcp/client.go:452-458 | only the first closing has an effect |
| PendingRequests.SendsNeverBlock | core/mcp/client.go:366-405 | in every run neither reader nor closing waits for room, and no channel gets a second message |
| PendingRequests.AnswersAreOwn | core/mcp/client.go:253-300 | with channels and ids kept apart, the channel of a request only ever carries the response with its own id, as section 5 of the JSON-RPC 2.0 Specification asks |
| PendingRequests.AnswersWereRead | core/mcp/client.go:366-405 | in every run a request that was answered has, word by word, a response the reader has read |
| PendingRequests.GivenUpStays | core/mcp/client.go:264-300 | in every run a request that could not be written, ran out of time or saw the closing never returns an answer |
| PendingRequests.TableEmpties | core/mcp/client.go:253-300 | returned requests leave nothing in the table, even when they registered during or after the closing |
| PendingRequests.NobodyIsForgotten | core/mcp/client.go:276-300 | a waiting request is pending, about to be sent its response, or can take it; after the closing it can always leave |
| SkillCatalog.Manager.Reload | core/skill/manager.go:78-103 | a scan that fails keeps the list and leaves the catalog dirty; one overtaken by an invalidation installs its list but stays dirty |
| SkillCatalog.Manager.EnsureLoaded | core/skill/manager.go:223-231 | a clean watched catalog is used as it is, any other is scanned |
| SkillCatalog.Manager.InstallWatcher | core/skill/manager.go:136-158 | installs at most one watcher and counts its start as a change |
| SkillCatalog.CleanIsCurrent | core/skill/manager.go:78-103 | in every interleaving a clean list comes from a scan that began after the last invalidation, and equals the disk unless a later change is unreported |
| SkillCatalog.UnwatchedIsScanned | core/skill/manager.go:223-231 | from the end of a watcher until another starts the list is never used without a scan |
| SkillCatalog.OnlyScansChangeTheList | core/skill/manager.go:94-102 | nothing but a successful scan changes the list |

## Left out

- RuntimeRetirement: one live registry; a reload onto a second registry, which retires the old clients against the new one, is not modelled. A cleanup closes all its clients when it begins, which is the harder case. The private registry a plugin's own runtime was started with has no snapshots. Manifest discovery and validation of plugins are not modelled.
- McpReload.Manager.Reload: a server either starts and lists its tools or fails; timeouts and the protocol below are not part of it. Sources are registered in list order; the source uses map order, which makes no difference for distinct names.
- ToolNames.UniqueToolName: does not model the nil table, for which the base is returned unchanged; no caller passes it. Counters beyond the range of `int` are excluded by the precondition.
- Mailbox.Task.MarkEnded: models marking as failed and as canceled as one operation with the status as parameter.
- Mailbox: the database's optimistic writes appear as one atomic commit of the reconciled record.
- SessionLock.Coordinator.Refer: callers are taken to mark their context after locking, as they do. A goroutine that kept a marked context beyond the unlock would pass without the lock; that is outside the model.
- PendingInput.Queue.RequeueIdentified: its contract speaks about inputs that were drained before, which is what callers pass; for others it promises nothing. One session is modelled, and inputs are pairs of id and content without the other metadata that is compared along with them.
- ParentTurn.ContinuePending: in this method inputs arrive before the loop and between its rounds; PendingDelivery covers arrivals at every other moment. Whether the loop's phase lets it drain in a round is free. The branch for blank inputs is absent because the queue holds none, and the fallback for queues without identities is not modelled.
- PendingDelivery: the acknowledger is configured, as it is once the subagent runtime has started; without one an acknowledgement succeeds and the input stays in flight (ParentTurn has both cases). Turns may generate several times, as turns over a plan do, and may succeed after a loop that failed, which the program does not do; both only add runs.
- SessionRuns: fingerprints are taken to be trimmed and not blank, as hexadecimal digests are. A store that fails to save a summary, which puts the previous one back, is a compaction that did not happen. A restart loads what the session holds; messages lost on the way to the store are not modelled.
- Continuations: one session, whose lock is the abstract one that SessionLock proves.
- BackgroundEvents: events carry only what the proofs are about; the mapping of errors to a final status is not modelled.
- PendingRequests: writing to the process is one step that succeeds or fails; parsing of ids and the text of errors are not modelled.
- SkillCatalog: scanning and matching of skills are a value the disk provides. Debouncing and the end of the watch loop do not change the catalog except for switching watching off.
- RuntimeRefinement.ReloadRefines: the processes a reload starts are taken to be new ones; several managers at once are the subject of RuntimeSafety.
- TaskRecorder.NetAppliesTo: hashes are taken to tell contents apart; without that a change between colliding contents of one size goes unseen.
- TaskRecorder: one workspace with one store; titles and several workspaces are not modelled. Contents that were not kept (binary or too large files) can be told apart but not restored, so reversal is up to that.
- SessionState: the hash is any function of message contents and sources; a collision between a history and the same history with one more message appears as a case of its own. Sequence numbers do not overflow.
- Compaction: JSON decoding of version-1 summaries is a predicate on texts.
- ContextWindow: the cacheable prefix, the trigger ratio and the text that is hashed are not modelled.
- Websocket, relay, gRPC and HTTP endpoints, database and object-store adapters, subprocesses, configuration and command line: input and output without state of their own worth proving.
- Prompt building, hooks, intent keywords and field validators: one-step checks and text assembly that keep no state and that nothing above depends on.
