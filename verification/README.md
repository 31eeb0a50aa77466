# A verified model of the orchestration kernel and the repair loop

This project models, in Dafny, how the harness plans, schedules, merges, rewinds, journals and repairs work, and
proves what those parts keep over whole runs. Verify it with `dafny verify dfyconfig.toml`.

## What is modelled

**The orchestration kernel.** `TaskGraph.dfy` has the graph a user approves: node and graph validation, the layered
topological order, the dependency search and the write-conflict rule, over the paths of `RepoPath.dfy` and the
dependency theory of `Dependencies.dfy`. `Scheduling.dfy` is the scheduler as a state machine whose events are user
commands, the scheduler getting a turn, and any non-empty subset of the running tasks finishing; `Orchestration.dfy`
is the session object with its dispatch and completion loops, proved against that machine. `SchedulerSafety.dfy`,
`SchedulerConfluence.dfy` and `SchedulerControls.dfy` hold the theorems about its runs, `SchedulerCommands.dfy` those
about what a command does to everything after it, and `DispatchOrder.dfy` which node is dispatched as the how-manieth
and to which provider. `Files.dfy` models a repository
as a map from paths to files and directories; `Checkpoints.dfy` and `MergeQueue.dfy` change it path by path and may be
stopped at any path, with any content left there. `OrchestrationStore.dfy` has the persisted sessions and their
journals: every operation writes the record and then opens the journal to append to it; `StoreHistory.dfy` has what
sequences of them keep of the record. `OrchestrationRuntime.dfy` has
the runtime object, which copies the stored session and opens a journal handle when it is built and reads the store
again only when its run has returned; `RuntimeHistory.dfy` is about everything that may happen to the store in between.
`MergeHistory.dfy` is about whole sequences of reviews, interrupted ones included.

**The generation loop.** `Generation.dfy` writes the controller's loop as a function of its collaborators: gates,
suppliers, detectors, strategies and prompt builders are fields that may answer anything, differently at every attempt,
and suppliers may raise. `GenerationController.dfy` is the loop over mutable variables, proved equal to it;
`GenerationRuns.dfy` proves what every run keeps, `GenerationProvenance.dfy` whose answer each draft is, who is asked
for it and why a run ends, and `GenerationResume.dfy` how checkpoints resume.

**Smaller algorithms.** The provider schedules (`Providers.dfy`, `Contribution.dfy`), the journal
(`EventJournal.dfy`), subagent merges (`Subagents.dfy`), the configuration parser (`ConfigParser.dfy`), the bracket
matcher and prompt budget (`PromptBudget.dfy`), and source edits with their lines and UTF-8 columns
(`SourceEdits.dfy`). Files hold bytes; `Utf8.dfy` has UTF-8 and what reading and writing in text mode does to them.

`Witnesses.dfy` and `RuntimeWitnesses.dfy` have a concrete input for each property that turned out not to hold.

Digests are free constructors: two files have the same digest exactly when they have the same content, and "missing"
is no file's digest. Identifiers are fresh numbers. Answers of people, models, clocks and processes are parameters.

## What the proofs found

- After a single step has been used up, `resume` never dispatches again: the budget stays at zero until another step
  (`StepThenResumeNeverDispatches`), and every turn that could dispatch pauses the run instead (`UsedStepPauses`).
- A breakpoint holds its node however often the run is resumed: each turn that comes to it pauses again, until it is
  cleared or a step is granted (`BreakpointHolds`, `BreakpointStopsTurn`).
- A step requested through the store is never taken back, so every runtime built afterwards starts with one granted
  step and dispatches at most one node in its whole run, unless it is stepped again (`StepIsForever`,
  `SteppedSessionsCrawl`).
- Approval is checked against the session a runtime copied when it was built. One built while the session was approved
  dispatches that graph even after a revision has replaced it and its approval is gone; the dispatched graph is the
  stored one, and still approved, exactly when nothing was revised since (`DispatchedRevision`,
  `OldRevisionDispatched`).
- Writing a run back over a record that was revised in between keeps the record sound exactly when the set of nodes is
  the one that was loaded (`WriteBackKeepsSound`, `WriteBackUnsound`).
- A runtime's session keeps its journal handle open while the store opens others on the same file. The journal stays
  readable exactly when the session journals nothing after the store's first write since the runtime was built, and
  only then, or with no attempt to record, is the run written back (`ReadableIffNoLateEvent`, `WrittenBackIff`). Once
  the file is spoilt, every store operation writes its record and then raises, and no runtime can be built
  (`SpoiltForGood`, `StaleHandleCorrupts`); the architecture document calls the journal the source of truth with
  monotonic sequence numbers.
- A `run` of a newly built runtime overwrites the stored merge queue, so proposals still waiting for review are lost
  (`SecondRunDropsWaitingProposals`, `NewRuntimeDropsProposal`). A second `run` of the same runtime object, if its
  session journals nothing more, stores the first run's whole queue again: waiting proposals stay, and reviewed ones
  come back. A command that journals something spoils the journal instead, and the queue is not stored
  (`SecondRunOfSameObject`, `SameRuntimeReturnsProposal`).
- An approved review that is refused (stale, or rejected by validation) raises before the queue is popped, so the
  proposal stays at the head and blocks those behind it until it is rejected (`ReviewCases`).
- A write that fails in the middle of an applied proposal leaves it at the head of the queue over half-written files.
  It can be merged exactly when the paths written so far have their recorded content again (`InterruptedMergesIff`).
- "Cancelled sessions are terminal" holds for transitions only. Of the store's operations, approving, revising and
  stepping leave the cancelled status (`CancelledIsNotTerminal`); so does a run of a runtime built while the session
  was approved, whatever has become of the approval, exactly when the run is written back (`WaysOutOfCancelled`,
  `CancelledBecomesCompleted`). A run never reads the status: a runtime built after the cancel starts as before it
  (`CancelDoesNotReachTheRuntime`).
- The comment in `retry` speaks of descendants blocked solely by the retried node; the code resets every blocked
  descendant. The two agree exactly when no blocked descendant has another failed or cancelled ancestor
  (`RetryIsSoleIff`); one that has is blocked again by the next run (`OtherCauseBlocksAgain`,
  `RetryResetsOtherwiseBlocked`).
- A revision carries node states onto the new graph, and a recorded attempt sets any state, so a succeeded node can end
  up with an unfinished dependency (`RevisionLeavesSucceededOpen`, `AttemptLeavesSucceededOpen`); the exact conditions
  are in `ReviseKeepsClosed` and `AttemptKeepsClosed`.
- The parser's tab check can never fire, and a line indented by tabs is read at the column before the first tab
  (`TabsPassUnnoticed`).
- A subagent's files are read and written in text mode. The workspace's own content is merged exactly when no changed
  file holds a carriage return (`WorkspaceWinsIff`); a first writer that only adds carriage returns does not keep a
  second one from merging (`SecondWriterFreshIff`, `CarriageReturnLost`); and no proposal can be made while a changed
  file is not UTF-8, such as compiled code that a run leaves behind (`Diff`, `BytecodeRaises`).
- A subagent merge is not all-or-nothing when a directory has appeared where a new file is to go: its digest is
  "missing" too, and the paths before it have been written by then (`StoppedMergeWrote`, `StoppedMergeLeavesHalf`).
- A proposal merges into a repository nobody touched exactly when the workspace has no file where the copy left
  something out (`UntouchedMergesIff`): one under an ignored name that the repository also has is refused for ever
  (`IgnoredNeverMerges`, `IgnoredNameRefused`).
- Resuming the generation loop from a `ready_to_validate` checkpoint gives the rest of the run, except that the peer
  consultations already spent are forgotten: it differs exactly when it is then advised more often than the budget
  would still have allowed (`ResumeRefinesContinuation`, `ResumedBeyondBudget`).
- Resuming from `attempt_recorded` skips the strategy's manual review, the loop detector and the stagnation exits,
  transforms the first violation where the run transforms the top one, and raises on an empty answer. It agrees with
  going on exactly where none of this matters (`RecordedAgreesIff`, `RecordedStagnationDisagrees`), and replaces the
  reason of a run that had ended (`RecordedFailureRenamed`).
- With a contribution split, the payload of a finished run gets its contributions after the terminal checkpoint was
  written, so the payload resumed from that checkpoint is without them (agents/generation_controller.py:241-243).
- A resumed run uses the caller's prompt as it is, while the run had it extended with the history; they are the same
  only if the history adds nothing and the first draft did not come after a backend failure (`PlainHistoryResumes`).
- Positions of syntax nodes count lines by line feeds and carriage returns, but the source is split with `splitlines`,
  which also splits at form feeds and seven other characters: after one of those, spans are taken from another line
  (`LinesAgreeIff`, `FormFeedMovesLines`).
- Telemetry appends the call to its lists before it refuses an unexplained deviation (`ContributionTelemetry.Record`).

## Model

| member | source | states |
|---|---|---|
| RepoPath.SafeRepoPathMeaning | harness_kernel/task_graph.py:28-38 | exactly the non-empty relative paths without `.`, `..`, empty components or backslashes are accepted, and are returned unchanged |
| RepoPath.PathsOverlapMeaning | harness_kernel/task_graph.py:199-203 | on accepted paths, overlap is component-wise prefix comparability |
| RepoPath.RelativePathMeaning | harness_kernel/checkpoints.py:136-150 | the checkpoint store resolves a relative path iff it has a component and none goes up, and then to its components joined |
| RepoPath.UnchangedIsPlain | harness_kernel/checkpoints.py:136-150 | exactly the plain paths are kept as they are written |
| TaskGraph.CheckNode | harness_kernel/task_graph.py:76-90 | a node is accepted iff id, role, language, all four path lists and the read-only rule are in order; otherwise the error is the first check it fails, with the first bad path |
| TaskGraph.TopologicalOrder | harness_kernel/task_graph.py:126-138 | the loop succeeds iff the dependency relation has no cycle, and returns a dependencies-first permutation of the ids, the same the layer specification gives |
| Dependencies.OrderExistsIffAcyclic | harness_kernel/task_graph.py:126-138 | peeling ready layers gets through the whole graph iff no node depends on itself by a chain |
| Dependencies.OrderIsTopological | harness_kernel/task_graph.py:126-138 | the order lists every id once, each after all its dependencies |
| Dependencies.StuckHasCycle | harness_kernel/task_graph.py:132-134 | a remainder with no ready node contains a real cycle |
| Dependencies.DepthIsLongestChain | harness_kernel/task_graph.py:126-138 | a node's layer is the length of its longest dependency chain |
| Dependencies.OrderSortedByDepth | harness_kernel/task_graph.py:126-138 | the order goes layer by layer, sorted by id inside a layer |
| TaskGraph.TupleOrderIrrelevant | harness_kernel/task_graph.py:126-138 | graphs with the same nodes in another order have the same topological order |
| TaskGraph.FindDependency | harness_kernel/task_graph.py:140-151 | the stack search finds the ancestor iff a non-empty dependency chain leads to it, on cyclic graphs too |
| TaskGraph.Validate | harness_kernel/task_graph.py:104-124 | a graph is accepted iff ids are unique and known, the relation is acyclic and all conflicting editors are ordered; otherwise the error raised is one the graph has |
| TaskGraph.CheckConflicts | harness_kernel/task_graph.py:117-124 | passes iff every two editors with overlapping claims are ordered by a chain; an error names an unordered conflicting pair |
| TaskGraph.GraphRevision.Revise | harness_kernel/task_graph.py:161-179 | a revision of the new graph has the next number and the hash of the one it revises |
| Providers.ProviderAt | harness_kernel/task_graph.py:52-58 | the cumulative walk finds the entry whose weight block holds the index modulo the weight sum |
| Providers.PolicyShares | harness_kernel/task_graph.py:41-58 | any window of `sum(weights)` consecutive dispatch indexes picks entry i exactly `weights[i]` times |
| Contribution.ExactShare | harness_kernel/contribution.py:18-29 | any 100 consecutive calls contain exactly `split.qwen` qwen calls and `split.api` API calls |
| Contribution.ShareBounds | harness_kernel/contribution.py:18-29 | a corollary of the exact share: whole hundreds are exact, and a rest exceeds neither share |
| Contribution.ShareDiscrepancy | harness_kernel/contribution.py:18-29 | for every split, phase, start and length, the number of qwen calls is within 2.4 of the exact proportion, by the stride of 37 |
| Contribution.ContributionTelemetry.Record | harness_kernel/contribution.py:40-46 | lists grow by the call even when it is refused; accepted iff on schedule or explained; explained telemetry stays so exactly when accepted |
| Contribution.ContributionTelemetry.CallScheduled | agents/generation_controller.py:245-276 | recording scheduled calls keeps the record equal to the schedule's sequence, with no deviations |
| SchedulerSafety.RunInv | harness_kernel/orchestration.py:92-180 | after any events, each node's state is justified by the start state, its dependencies and cancellation, `running` is the set of RUNNING nodes, and it is within the bound |
| SchedulerSafety.AncestorsSucceeded | harness_kernel/orchestration.py:115-150 | every direct or indirect dependency of a running or succeeded node has succeeded |
| SchedulerSafety.SucceededStaysClosed | harness_kernel/orchestration.py:92-180 | a run keeps "succeeded is dependency-closed" |
| SchedulerSafety.OverlapIsOrdered | harness_kernel/task_graph.py:117-124 | in an accepted graph, nodes with overlapping write claims are ordered by a dependency chain |
| SchedulerSafety.WriteExclusion | harness_kernel/orchestration.py:115-150 | for an accepted graph and any mix of pause, resume, step, breakpoint, cancel and completions, no two running nodes have overlapping claims, and at most `concurrency` run |
| SchedulerSafety.MergeOrder | harness_kernel/orchestration.py:156-173 | the merge queue of a fresh session lists exactly the succeeded editors, once each, dependencies first |
| SchedulerSafety.RunQueueInv | harness_kernel/orchestration.py:156-173 | from any dependency-closed start, the queue lists exactly the editors that succeeded in this run, dependencies first |
| SchedulerConfluence.VerdictUnique | harness_kernel/orchestration.py:92-180 | the local outcome equations have at most one solution |
| SchedulerConfluence.VerdictMeaning | harness_kernel/orchestration.py:115-173 | from a fresh start: succeeded iff all dependencies did and the runner succeeds, failed iff all did and it fails, blocked otherwise |
| SchedulerConfluence.Confluence | harness_kernel/orchestration.py:92-180 | every finished run without cancel, whatever the interleaving, pauses, steps and breakpoints, ends in the states the equations fix |
| SchedulerConfluence.SameOutcome | harness_kernel/orchestration.py:92-180 | two finished runs with the same runner outcomes but any concurrency and completion order end in the same state map |
| SchedulerConfluence.BadAncestorBlocks | harness_kernel/orchestration.py:115-150 | a pending node with a failed, blocked or cancelled ancestor ends blocked in every finished run without cancel |
| SchedulerConfluence.TickProgress | harness_kernel/orchestration.py:115-155 | an undisturbed turn ends awaiting a non-empty set of tasks or with every node terminal; it never spins |
| SchedulerConfluence.Terminates | harness_kernel/orchestration.py:92-180 | an undisturbed run takes at most twice the nodes plus one effective steps, and can always take one until it returns |
| SchedulerControls.DispatchRules | harness_kernel/orchestration.py:115-150 | whatever is dispatched was pending with succeeded dependencies, not held by a breakpoint without a granted step, within the bound; each dispatch uses one granted step |
| SchedulerControls.StepDispatchesOne | harness_kernel/orchestration.py:86-90 | after a step the next turn dispatches at most one node, and one iff the loop is at its top, uncancelled, with room and a ready node; the step is used up then |
| SchedulerControls.UsedStepPauses | harness_kernel/orchestration.py:115-150 | with the step used up, the next turn that has room and a pending node dispatches nothing and pauses the run |
| SchedulerControls.StepThenResumeNeverDispatches | harness_kernel/orchestration.py:67-90 | once a step is used up, nothing but another step dispatches again, `resume` included |
| SchedulerControls.CancelledRunStops | harness_kernel/orchestration.py:107-114 | from a cancelled session nothing is dispatched, and the next turn returns with exactly the unfinished nodes cancelled |
| SchedulerCommands.CancelledIff | harness_kernel/orchestration.py:71-74 | over any events a session is cancelled iff it was to begin with or a cancel is among them |
| SchedulerCommands.CancelStops | harness_kernel/orchestration.py:71-114 | after any events with a cancel among them nothing is dispatched, and the next turn returns with exactly the unfinished nodes cancelled |
| SchedulerCommands.CancelGivesUp | harness_kernel/orchestration.py:71-114 | from a cancel on, what was pending stays so and is cancelled at the end, what was running finishes or is cancelled at the end, and no other state changes |
| SchedulerCommands.TurnAfterCommand | harness_kernel/orchestration.py:63-90 | after a command the loop at its top can take a turn iff the command is resume, step or cancel, or it was not paused and the command is no pause |
| SchedulerCommands.PauseHolds | harness_kernel/orchestration.py:63-107 | after a pause nothing is dispatched and turns change nothing until the run is resumed, stepped or cancelled, whatever else happens |
| SchedulerCommands.BreakpointsIff | harness_kernel/orchestration.py:76-84 | over any events a node has a breakpoint iff one was set for it, or there from the start, and has not been cleared since |
| SchedulerCommands.BreakpointHolds | harness_kernel/orchestration.py:121-124 | a node with a breakpoint is not dispatched by any later event, resumes included, until the breakpoint is cleared or a step granted |
| SchedulerCommands.BreakpointStopsTurn | harness_kernel/orchestration.py:115-124 | a turn that comes to a pending node with a breakpoint dispatches nothing behind it in the order, and leaves the run paused unless it is full |
| SchedulerCommands.JournalCounts | harness_kernel/orchestration.py:57-173 | how many events each step journals: one for a command, unless it is a breakpoint for no node, for each node dispatched or blocked, for a breakpoint hit and for each finished task; none when a cancelled run returns |
| DispatchOrder.DispatchedOnce | harness_kernel/orchestration.py:115-150 | over any events no node is dispatched twice; what was dispatched had been pending and is running, finished or cancelled, and every other pending node is pending still, blocked or cancelled |
| DispatchOrder.StepsBound | harness_kernel/orchestration.py:86-150 | once steps are counted, a run without another step has dispatched exactly the granted steps that are not left |
| Orchestration.OrchestrationSession.Approve | harness_kernel/orchestration.py:57-61 | only the current revision's hash is accepted, and is what is stored |
| Orchestration.OrchestrationSession.StepRun | harness_kernel/orchestration.py:86-90 | refines the machine's step command |
| Orchestration.OrchestrationSession.CancelRun | harness_kernel/orchestration.py:71-74 | refines the machine's cancel command, which `SchedulerCommands` gives its meaning over whole runs |
| Orchestration.OrchestrationSession.Visit | harness_kernel/orchestration.py:115-150 | one node of the dispatch loop refines the machine's visit and stops the pass when the machine does; a dispatched node gets the provider its policy gives the dispatch index |
| Orchestration.OrchestrationSession.DispatchPass | harness_kernel/orchestration.py:115-150 | the loop over the order refines one pass; the dispatch index rises by the number of nodes it starts, these get consecutive indexes in dispatch order and the providers their own policies give for them, and no other entry changes |
| Orchestration.OrchestrationSession.CollectDone | harness_kernel/orchestration.py:156-173 | the loop over finished tasks refines the completion event, queueing editors in topological order |
| Orchestration.OrchestrationSession.Run | harness_kernel/orchestration.py:92-180 | an unapproved session, in any condition, refuses and changes nothing; an approved one, under any commands given while it runs, replays the machine: it ends with every node terminal, without a cancel in the unique outcome of its runners, with the editors that succeeded queued, or it waits paused for a command; undisturbed it ends; over the whole run the k-th dispatched node gets the provider its policy gives for k, counted from 0, other nodes keep theirs, and after a cancel nothing is dispatched and what was pending ends cancelled |
| Checkpoints.CheckpointStore.Create | harness_kernel/checkpoints.py:33-54 | succeeds iff every path is accepted and no directory is at one, saving exactly the files there under their normalised names; otherwise saves nothing |
| Checkpoints.CheckpointStore.Restore | harness_kernel/checkpoints.py:69-124 | stopped anywhere, with anything left at the failing path, it either makes every listed path equal its snapshot and touches no other, or leaves the workspace exactly as before |
| Checkpoints.CheckpointStore.BackUp | harness_kernel/checkpoints.py:95-104 | the backup holds exactly the current content of the listed files |
| Checkpoints.CheckpointStore.RollBack | harness_kernel/checkpoints.py:114-123 | from the backup, every listed path gets its old content back whatever was half-written |
| Checkpoints.SnapshotRestorable | harness_kernel/checkpoints.py:33-54 | a fresh snapshot passes the checks of `restore` while no directory is in the way |
| Checkpoints.RewindIsIdentity | harness_kernel/checkpoints.py:69-124 | after changes to listed paths only, restoring their snapshot gives back the whole earlier file map |
| MergeQueue.SerializedMergeQueue.Enqueue | harness_kernel/merge_queue.py:35-43 | accepted iff the node edits, its paths are allowed and the hashes cover exactly its claims |
| MergeQueue.SerializedMergeQueue.FirstStale | harness_kernel/merge_queue.py:58-61 | finds a changed path iff one differs from the recorded base |
| MergeQueue.SerializedMergeQueue.ReviewNext | harness_kernel/merge_queue.py:48-73 | the head leaves the queue; iff it is approved, validated, permitted in the queue's mode and every claim holds its recorded content as a file or not at all, a checkpoint of the earlier content is taken and every claim then holds what the workspace holds there; otherwise files and checkpoints are as before; an interrupted write leaves exactly the claims before it merged |
| MergeQueue.SerializedMergeQueue.MergeThenRewind | harness_kernel/merge_queue.py:64-73 | wherever the write loop stops, restoring the checkpoint it took gives back exactly the pre-merge repository |
| MergeHistory.SerialReplay | harness_kernel/orchestration_runtime.py:91-115 | over any reviews, interrupted ones included, and outside edits, the repository is the sequential replay of exactly the outside edits and the approved, validated proposals that found the base content they recorded, whole or up to where a write failed; whole ones in queue order |
| MergeHistory.WritesAreCaused | harness_kernel/merge_queue.py:48-73 | every write in that history comes from an event of its own: an outside edit, or an approved and validated review of the proposal it writes, which did or did not fail there |
| MergeHistory.ReviewTouches | harness_kernel/merge_queue.py:48-73 | a review, interrupted or not, changes a path only if it writes a proposal that claims it and the path still has its recorded base content |
| MergeHistory.OutsideEditSurvives | harness_kernel/merge_queue.py:58-61 | a path edited since the run's base is never overwritten by a review |
| MergeHistory.InterruptedMergesIff | harness_kernel/merge_queue.py:64-73 | after a write has failed the proposal is still the head, and can be merged iff every path up to the failing one has its recorded content again; then the merge gives what the uninterrupted one would have given |
| MergeHistory.UnclaimedUnchanged | harness_kernel/merge_queue.py:64-73 | paths no queued proposal claims keep their content through any reviews |
| MergeHistory.ChangesAtMostOnce | harness_kernel/orchestration_runtime.py:68-71 | without outside edits, each path changes content at most once across all reviews of a run |
| SessionStore.OrchestrationStore.ApproveSession | harness_kernel/orchestration_store.py:37-45 | stores the approval iff the hash is the current revision's, then journals it; over an unreadable journal the approval is stored and the call raises |
| SessionStore.OrchestrationStore.TransitionSession | harness_kernel/orchestration_store.py:47-60 | refuses an unapproved run and any transition out of cancelled, leaving record and journal as they were; otherwise the record is written and then journalled |
| SessionStore.OrchestrationStore.ReviseSession | harness_kernel/orchestration_store.py:62-74 | the next numbered, linked revision, no approval, and the states of the kept nodes, written before the journal is opened |
| SessionStore.OrchestrationStore.RecordNodeAttempt | harness_kernel/orchestration_store.py:76-92 | over any record, sound or not: a known node gets one more numbered attempt and its state, written before the journal is opened; an unknown one is refused |
| SessionStore.OrchestrationStore.AppendEvent | harness_kernel/orchestration_store.py:135-136 | an event is appended at the end of the file iff the file reads back |
| SessionStore.OrchestrationStore.RetryNode | harness_kernel/orchestration_store.py:94-114 | only a failed, blocked or cancelled node; it and exactly its blocked descendants become pending, and approval is kept; written before the journal is opened |
| SessionStore.Unblock | harness_kernel/orchestration_store.py:106-110 | the loop over the nodes resets exactly the blocked descendants |
| SessionStore.ApplySound | harness_kernel/orchestration_store.py:37-133 | every operation keeps the record well-formed, with the revision unchanged or the next one linked by hash |
| SessionStore.ApprovalIsCurrent | harness_kernel/orchestration_store.py:37-133 | over every sequence of operations, the approved hash is absent or the current revision's and was approved after that revision was made, and hashes link back to revision 1 |
| SessionStore.CancelledIsNotTerminal | harness_kernel/orchestration_store.py:37-133 | of the store's operations, exactly an approval of the current hash, a revision or a step takes a session out of cancelled |
| StoreHistory.StatusSet | harness_kernel/orchestration_store.py:37-133 | the status each operation leaves, going through or refused |
| StoreHistory.StateChanges | harness_kernel/orchestration_store.py:37-133 | a node's stored state changes only by a recorded attempt of it, or to pending by a retry of it or, if it is blocked, of an ancestor |
| StoreHistory.ReviewDataKept | harness_kernel/orchestration_store.py:37-133 | no operation of the store touches the merge queue, the proposals, their hashes or the outcomes |
| StoreHistory.AttemptsOnlyGrow | harness_kernel/orchestration_store.py:62-92 | over any operations, revisions and retries included, the attempts of a node that stays in the graph are only added to |
| StoreHistory.AttemptsAreCounted | harness_kernel/orchestration_store.py:83-86 | over any operations the attempts of every node stay numbered from one |
| StoreHistory.RevisionCarries | harness_kernel/orchestration_store.py:66-70 | a revision keeps state and attempts of exactly the kept nodes, starts the others pending with none, and keeps the debug settings |
| StoreHistory.OverridesAreAllowed | harness_kernel/orchestration_store.py:100-104 | a provider override is only ever set by a retry of that node, to a provider of its stored policy |
| StoreHistory.RetryUsesProvider | harness_kernel/orchestration_store.py:94-105 | a retry with a provider the policy allows is recorded with it |
| StoreHistory.StepIsForever | harness_kernel/orchestration_store.py:125-127 | over any operations a step is requested iff it was to begin with or a step is among them |
| StoreHistory.SteppedSessionsCrawl | harness_kernel/orchestration_runtime.py:62-63 | a runtime built from any record for which a step was ever requested dispatches at most one node in its whole run unless it is stepped itself |
| SessionStore.RetryKeeps | harness_kernel/orchestration_store.py:94-114 | a retry keeps "succeeded is dependency-closed" and "every blocked node has a failed, blocked or cancelled dependency" |
| SessionStore.RetryIsSoleIff | harness_kernel/orchestration_store.py:94-114 | a retry resets just the descendants blocked solely by the node iff no blocked descendant has another failed or cancelled ancestor |
| SessionStore.OtherCauseBlocksAgain | harness_kernel/orchestration_store.py:94-114 | a reset descendant with another cause is blocked again in every next outcome |
| SessionStore.AttemptKeepsClosed | harness_kernel/orchestration_store.py:76-92 | exactly when recording an attempt keeps the succeeded nodes dependency-closed |
| SessionStore.ReviseKeepsClosed | harness_kernel/orchestration_store.py:66-70 | exactly when a revision does: iff every dependency added to a succeeded node has itself succeeded |
| OrchestrationRuntime.PersistedOrchestrationRuntime.Build | harness_kernel/orchestration_runtime.py:48-71 | succeeds iff the session exists, its journal reads back and the concurrency is one of 1 to 8; the object gets the stored revision, approval, breakpoints, step and states with running read as pending, and a handle at the end of the journal, which gains only the repeated step; it holds no proposals and no providers yet |
| OrchestrationRuntime.PersistedOrchestrationRuntime.Run | harness_kernel/orchestration_runtime.py:73-89 | refuses, changing nothing, iff the approval copied when the runtime was built is not the copied revision's, whatever the store has become; a run that returns replays the machine from the copied session, and its attempts and outcome go over the record as it then is, or it raises at the first attempt it cannot record; the proposals it then holds, and stores, are the workspaces the tasks left for what this run queued and the old ones for what was queued before |
| OrchestrationRuntime.PersistedWritten | harness_kernel/orchestration_runtime.py:75-88 | written back are the final states, the queue, the proposals, the hashes and the status completed iff all succeeded, and each succeeded, failed or cancelled node has exactly one more attempt with its state, under the provider it was dispatched to, else the override; nothing else changes |
| OrchestrationRuntime.PersistedOrchestrationRuntime.RunThenReview | harness_kernel/orchestration_runtime.py:73-115 | an approved, validated, uninterrupted review of a node the run has queued leaves on its claims what its task left in its workspace, if it changes anything; and it does so if the node is the head, the graph was not revised and the claims are as they were when the runtime was built |
| OrchestrationRuntime.PersistedOrchestrationRuntime.Command | harness_kernel/orchestration_runtime.py:48-58 | a command to the session refines the machine's and journals through the runtime's own handle |
| OrchestrationRuntime.PersistedOrchestrationRuntime.WriteBack | harness_kernel/orchestration_runtime.py:75-89 | every attempt is recorded before the outcome is stored; the outcome is stored iff every node to record is still known and, if there is one, the journal reads back |
| OrchestrationRuntime.RecordAttemptsMeaning | harness_kernel/orchestration_runtime.py:82-85 | recording one attempt after another goes through iff all are of known nodes and the journal, if it is needed, reads back, and then each node has exactly one more attempt; stopped or not, nothing but attempts and states changes |
| OrchestrationRuntime.RunOfLoaded | harness_kernel/orchestration_runtime.py:73-89 | a first run written back stores the unique outcome of the states it loaded, completed or failed, over the later record, and its own succeeded editors as queue; if the graph is still the loaded one they can be reviewed as that run's |
| OrchestrationRuntime.WriteBackSoundIff | harness_kernel/orchestration_runtime.py:86-88 | a write-back keeps the stored record sound iff the run had exactly the nodes the record has now |
| RuntimeHistory.DispatchedRevision | harness_kernel/orchestration_runtime.py:53-74 | for every sequence of store operations after a runtime was built: the graph it dispatches is the stored one, and the approval it relies on still stored, iff none was a revision |
| RuntimeHistory.WriteBackKeepsSound | harness_kernel/orchestration_runtime.py:53-88 | writing the run back after those operations keeps the record sound iff the last revision left the set of nodes as it was loaded |
| RuntimeHistory.BuiltAtEnd | harness_kernel/orchestration_runtime.py:56-63 | a runtime just built has its handle at the end of a readable journal, its own first event included |
| RuntimeHistory.ReadableIffNoLateEvent | harness_kernel/orchestration_runtime.py:48-115 | over any interleaving of scheduler events, store operations and reviews after a runtime was built, the journal reads back iff the session journals nothing after the store's first write |
| RuntimeHistory.WrittenBackIff | harness_kernel/orchestration_runtime.py:73-89 | over any such interleaving the run is written back iff the nodes to record are still stored and, if there are any, the session journalled nothing after the store's first write |
| RuntimeHistory.SpoiltForGood | harness_kernel/event_journal.py:42-51 | a spoilt journal stays so whatever happens, and every store operation still writes its record and then raises |
| OrchestrationRuntime.PersistedOrchestrationRuntime.ReviewMerge | harness_kernel/orchestration_runtime.py:91-115 | only the head of the queue is reviewed and a refusal stores nothing; on a record of a run every call, refused, raising or interrupted, is one step of the serial history, and the record stays one; over an unreadable journal the outcome is stored and the call raises; it changes files or checkpoints only if approved, validated and fresh, and then the claims hold what the retained workspace holds; the outcome is noted with its answer and checkpoint |
| OrchestrationRuntime.ReviewCases | harness_kernel/orchestration_runtime.py:91-115 | which reviews change what: rejected ones only the queue, passing ones both, refused ones neither |
| OrchestrationRuntime.RunKeepsStoredFacts | harness_kernel/orchestration_runtime.py:63-71 | whatever happens during a run of a stored session, succeeded stays dependency-closed and every blocked node keeps a cause |
| OrchestrationRuntime.SecondRunDropsWaitingProposals | harness_kernel/orchestration_runtime.py:73-89 | a run of a newly built runtime drops every proposal still waiting; they survive iff there were none |
| OrchestrationRuntime.SecondRunOfSameObject | harness_kernel/orchestration_runtime.py:73-89 | a second run of an object whose first run was recorded is written back iff its session journals nothing more; then the first run's queue and states are stored again, and the queue is unchanged iff nothing was reviewed since; otherwise recording raises and the stored queue stays |
| OrchestrationRuntime.WaysOutOfCancelled | harness_kernel/orchestration_runtime.py:73-89 | a cancelled session is left exactly by an approval of the current hash, a revision, a step, or a run that is written back of a runtime that loaded an approved session |
| OrchestrationRuntime.CancelDoesNotReachTheRuntime | harness_kernel/orchestration_runtime.py:48-71 | a runtime built after a cancel has the same session, revision and approval as one built before it |
| GenerationController.GenerationController.ValidateDraft | agents/generation_controller.py:1401-1519 | a draft passes iff every configured gate passes it; only a compliant behaviour run demotes findings, and only a draft that passed policy and behaviour is profiled |
| GenerationController.GenerationController.JudgeAttempt | agents/generation_controller.py:1520-1836 | the overwritten review flags amount to one prioritised reason, and a repair is routed exactly when none is forced and the bound allows it |
| GenerationController.GenerationController.CallScheduled | agents/generation_controller.py:264-276 | the scheduled provider is the one called: the architect at an API call, the small worker at a qwen call; the draft is its answer under its own name, the call is recorded iff it returns, and the record stays the schedule's own sequence |
| GenerationController.GenerationController.RepairDraft | agents/generation_controller.py:1880-2092 | supplier failure, constrained failure, peer advice, stagnation and escalation end as the specification says, in a good outcome with at most one recorded call |
| GenerationController.GenerationController.Loop | agents/generation_controller.py:1396-2124 | the loop over mutable variables returns the specified session and writes exactly the specified checkpoints, its run is good from a good state, and every draft of it is the answer of the worker it names |
| GenerationController.GenerationController.Run | agents/generation_controller.py:1288-2124 | the same from a request, the initial backend failure included, for max_retries >= 0 and a record on schedule; the first draft is the scheduled supplier's, and a run nobody drafts for ends with the failure of the last one asked |
| GenerationRuns.JudgeFacts | agents/generation_controller.py:1520-1836 | an attempt records its own index, draft, source and verdict; peers are asked within the limit; a worker is named iff a repair was routed |
| GenerationRuns.RepairGood | agents/generation_controller.py:1880-2092 | every way out of a repair appends the attempt with its verdict, gives up only on that attempt with a review of it, and keeps budget and schedule |
| GenerationRuns.ArchitectOnly | agents/generation_controller.py:1666-1668 | a repair given to the architect goes on only with the architect's draft |
| GenerationRuns.ContinueBounds | agents/generation_controller.py:1657-1668 | another attempt is granted only within the limit, and the one past it only to the architect |
| GenerationRuns.RunsAreGood | agents/generation_controller.py:1396-2105 | every run makes at most max_retries + 2 attempts; only its last can have passed; it is completed iff that one passed all four gates and else carries a review of it; attempt max_retries + 1 is an architect's draft; a failed architect draft is retried at most once; contributions follow the schedule |
| GenerationRuns.GeneratedRunsAreGood | agents/generation_controller.py:1288-2124 | the same for every request with max_retries >= 0, weighted or not, and after an initial backend failure |
| GenerationProvenance.DraftsAreAnswers | agents/generation_controller.py:1880-2092 | every draft a run validates after its first is what the worker it is sourced to answered to the repair of the attempt before it, under the prompt that attempt records; and every attempt is compared with the one before it |
| GenerationProvenance.GeneratedDraftsAreAnswers | agents/generation_controller.py:1235-1370 | the same for every request, and the first draft is the answer of the provider whose turn it is, or without a split of the draft supplier; a backend failure is recorded iff that one raised, with the architect's failure if it was asked in vain |
| GenerationProvenance.CallAnswers | agents/generation_controller.py:264-276 | a worker's reply is its own answer, and under a split that of the provider whose turn it is |
| GenerationProvenance.ArchitectThreshold | agents/generation_controller.py:1665-1678 | a repair goes to the architect iff it follows a constrained repair, or there is an architect and the diagnostics stagnate or as many attempts have failed as the threshold says |
| GenerationProvenance.ModeIsAsked | agents/generation_controller.py:1679-1700 | the strategy is asked for a mode iff a small worker's failure repeats itself, and a transform or patch is made iff that is its answer |
| GenerationProvenance.PeerIsAsked | agents/generation_controller.py:1710-1734 | a peer is asked about a stagnant small worker's repair while the budget lasts, under the trigger that applies, and its answer is recorded and paid for |
| GenerationProvenance.PeerIsAskedAgain | agents/generation_controller.py:1969-2010 | and again when the small worker's answer makes no progress and no advice was given yet; the advice is in the prompt of the second call |
| GenerationProvenance.RoutedPrompt | agents/generation_controller.py:1701-1808 | the prompt of a routed repair, worker by worker |
| GenerationProvenance.EscalatedPrompt | agents/generation_controller.py:1924-2043 | a repair handed on to the architect is asked for under a prompt of its own, from another angle, with the failed attempt among the others: the scoped one after a failed constrained repair, the escalation's after a stagnant one |
| GenerationProvenance.EveryRunIsReviewed | agents/generation_controller.py:1875-2105 | whatever max_retries is, a run that is not completed has no attempt or carries a review of its last one for the reason it ended |
| GenerationProvenance.EveryAttemptIsRecorded | agents/generation_controller.py:1843-2122 | every attempt a run makes is recorded before anything is done about it, and the last checkpoint is terminal and holds the run's session |
| GenerationProvenance.ReasonsHold | agents/generation_controller.py:1612-2105 | every reason a run gives for a review is true of the attempt under review, and of the reasons for refusing a repair beforehand it is the first that applies |
| GenerationProvenance.ContinuesOnly | agents/generation_controller.py:1612-2092 | a run goes on from an attempt only if nothing asked for a review of it: no forced review, no manual strategy, no loop, and a repair left |
| GenerationResume.ResumeRefinesContinuation | agents/generation_controller.py:1300-1365 | every ready-to-validate checkpoint with a draft, resumed by the controller as it was there, gives the same remaining attempts, status, reason, review, checkpoints and recorded calls, unless it is advised beyond what the spent consultations left of the budget, and then another session; without a draft it is refused |
| GenerationResume.GeneratedRunsResume | agents/generation_controller.py:1956-1968 | the same for the runs a request produces, under the prompt the run had |
| GenerationResume.ForgottenConsultations | agents/generation_controller.py:974-1030 | a run with the spent consultations forgotten is the same run iff it stays within what they left of the budget |
| GenerationResume.NewProcessResumes | agents/generation_controller.py:1307-1323 | without peer and split a controller of a new process resumes every such checkpoint into the rest of the run |
| GenerationResume.PlainHistoryResumes | agents/generation_controller.py:1297-1298 | with the caller's own prompt too, if the history adds nothing and the first draft needed no fallback |
| GenerationResume.TerminalIsFinal | agents/generation_controller.py:1302-1306 | every terminal checkpoint of a run resumes into that run's own session; the contributions a split adds to the run's payload afterwards are not part of the session compared |
| GenerationResume.RecordedCompleteAgrees | agents/generation_controller.py:1325-1343 | a recorded attempt that passed resumes into the same completed session |
| GenerationResume.RecordedFailureRenamed | agents/generation_controller.py:1344-1360 | a recorded failure without a routed repair resumes into manual review for a reason the run never had |
| GenerationResume.RecordedAgreesIff | agents/generation_controller.py:363-397 | for every recorded attempt and route, resuming agrees with going on iff the attempt passed, or no review was forced, no loop found and its worker's answer is a non-empty one the run would validate next |
| EventJournal.EventJournal.Append | harness_kernel/event_journal.py:71-82 | one event is appended; the file stays readable iff it was and the handle stood at its end |
| EventJournal.EventJournal.Read | harness_kernel/event_journal.py:84-92 | a verified read raises iff the numbering or a session is wrong, after yielding exactly the good prefix before the first fault |
| EventJournal.Open | harness_kernel/event_journal.py:42-51 | opening succeeds iff the file reads back, and then the handle stands at its end |
| EventJournal.ReadableIffAlwaysAtEnd | harness_kernel/event_journal.py:71-92 | for any handles and any interleaving of opens and appends, the file reads back iff every append went through a handle of the session standing at the end of the file |
| EventJournal.SingleWriterReadable | harness_kernel/event_journal.py:49-51 | a single writer, reopening at will, always leaves a readable file |
| EventJournal.CorruptForever | harness_kernel/event_journal.py:49-51 | once unreadable, no action makes the file readable or opens it again |
| EventJournal.StaleHandleCorrupts | harness_kernel/orchestration_store.py:135-136 | a handle kept open across another's append spoils the file for good with its next append |
| EventJournal.AppendedReadable | harness_kernel/event_journal.py:71-82 | events numbered from where a handle stands keep the file readable iff there are none or the handle stands at its end |
| Subagents.IsolatedSubagentWorkspace.Diff | harness_kernel/subagents.py:45-54 | succeeds iff the workspace is active and every changed file is UTF-8; then it lists exactly the differing paths, sorted, each with its text and the digest it replaces |
| Subagents.IsolatedSubagentWorkspace.MergeReviewed | harness_kernel/subagents.py:56-72 | merges iff approved, fresh and no directory in the way; a stale proposal writes nothing; the new file map in every case |
| Subagents.ThreeWay | harness_kernel/subagents.py:45-72 | a merge goes through iff the repository still agrees with the copy on every path the workspace changed, and then the workspace's text is there and the repository elsewhere |
| Subagents.WorkspaceWinsIff | harness_kernel/subagents.py:45-72 | a merge gives every changed path the workspace's own bytes iff no changed file holds a carriage return |
| Subagents.DisjointCommute | harness_kernel/subagents.py:56-72 | proposals for different paths commute: content, success and refusal |
| Subagents.SecondWriterFreshIff | harness_kernel/subagents.py:56-64 | of two subagents from the same copy the second is still fresh after the first has merged iff what the first wrote, or the repository has elsewhere, is the copy's content on every path the second changed |
| Subagents.SecondWriterRefused | harness_kernel/subagents.py:56-64 | if they changed a common path and the first wrote other content there than the copy's, only the first can merge |
| Subagents.StoppedMergeWrote | harness_kernel/subagents.py:65-72 | a merge stopped by a directory left the repository alone iff what it wrote at the paths before the directory was there already |
| Subagents.UntouchedMergesIff | harness_kernel/subagents.py:33-72 | a proposal merges into the repository it was copied from, untouched, iff the workspace has no file at a path the copy left out |
| Subagents.IgnoredNeverMerges | harness_kernel/subagents.py:33-37 | a workspace file under an ignored name can never merge over one the repository has |
| Utf8.EncodeDecode | harness_kernel/subagents.py:51 | the strict decoder loses nothing: what it accepts is encoded back to the same bytes (section 3 of RFC 3629) |
| Utf8.UniversalIff | harness_kernel/subagents.py:51 | reading in text mode gives the decoded text itself iff it has no carriage return |
| Utf8.RewrittenIff | harness_kernel/subagents.py:51-71 | bytes read as text and written as text are the same bytes iff they hold no carriage return |
| ConfigParser.TabsPassUnnoticed | agents/config_loader.py:353-355 | no line is ever refused for tabs, and no line is read deeper than its first tab |
| ConfigParser.PopTo | agents/config_loader.py:364-365 | the pop loop leaves exactly the frames with smaller indent and never the root |
| ConfigParser.StackInvariant | agents/config_loader.py:364-372 | the stack is strictly increasing and holds exactly the sections still open |
| ConfigParser.ParentIsInnermost | agents/config_loader.py:364-372 | each line is assigned under the latest earlier section with smaller indent and nothing at or left of it between, at that section's own address |
| ConfigParser.ParseYamlSubset | agents/config_loader.py:346-373 | the dictionaries built by reference stand for the assignments in order, or the first unreadable line is reported |
| ConfigParser.SpineUpdate | agents/config_loader.py:366-372 | changing the dictionary on top of the stack changes the configuration at exactly the path of the stack's keys |
| ConfigParser.RoundTrip | agents/config_loader.py:346-373 | printing any configuration with a fixed indentation step and parsing it gives it back |
| ConfigParser.TextRoundTrip | agents/config_loader.py:346-383 | the same with the lines as text, comment removal and stripping included |
| PromptBudget.UnbalancedPairs | prompt/budget.py:181-207 | false iff the brackets left after dropping escaped and quoted characters form a word of the three-pair Dyck grammar |
| PromptBudget.AcceptsIsDyck | prompt/budget.py:201-207 | the stack accepts exactly the words with a derivation |
| PromptBudget.BudgetHolds | prompt/budget.py:27-156 | a positive budget is never exceeded; a cut keeps its stretch of the end verbatim, and a history summary replaces exactly the text from the end of the first header to the next end marker by the summarizer's answer on it and keeps both sides |
| SourceEdits.ApplySourceEdits | agents/repair_strategy.py:174-178 | for any list order, splicing disjoint spans from the right is the simultaneous left-to-right splice |
| SourceEdits.SpliceOne | agents/repair_strategy.py:174-178 | one splice adds one edit to those to its right |
| SourceEdits.LineOffsets | agents/repair_strategy.py:151-155 | entry i is the number of characters before line i of the split source, the last entry the length of the source |
| SourceEdits.JoinedSplit | agents/repair_strategy.py:153 | splitting into lines with their ends loses nothing |
| SourceEdits.LinesAgreeIff | agents/repair_strategy.py:151-171 | the lines of `splitlines` are the parser's iff no other separator stands before the last character |
| SourceEdits.DecodePrefix | agents/repair_strategy.py:163-168 | decoding a line's first n bytes gives its first k characters, and fails iff n falls inside a character (section 3 of RFC 3629) |
| SourceEdits.NodeSpan | agents/repair_strategy.py:158-171 | the character span is the same text as the byte span given by lines and columns, of the parser's own lines where no other separator splits them; for columns within their lines it fails iff a line is missing or a column falls inside a character |
| SourceEdits.SpanOfBytes | agents/repair_strategy.py:158-171 | the encoding maps character spans to byte spans and keeps their order |
| SourceEdits.FormFeedMovesLines | agents/repair_strategy.py:158-171 | a source whose second line for the parser is the third of `splitlines` |
| Witnesses.RevisionLeavesSucceededOpen | harness_kernel/orchestration_store.py:66-70 | a sound session and a valid revision that leave a succeeded node with a pending dependency |
| Witnesses.AttemptLeavesSucceededOpen | harness_kernel/orchestration_store.py:76-92 | a recorded success that does the same |
| Witnesses.RetryResetsOtherwiseBlocked | harness_kernel/orchestration_store.py:94-114 | three nodes, two failed, where retrying one resets the third and every next outcome blocks it again |
| RuntimeWitnesses.NewRuntimeDropsProposal | harness_kernel/orchestration_runtime.py:73-89 | a sound, approved record of one editor whose proposal waits, and a run of a new runtime that leaves the queue empty |
| RuntimeWitnesses.SameRuntimeReturnsProposal | harness_kernel/orchestration_runtime.py:73-89 | the editor's run from pending, the review of its proposal, and a second run of the same object that queues it again |
| RuntimeWitnesses.OldRevisionDispatched | harness_kernel/orchestration_runtime.py:53-74 | a runtime built from an approved record, a revision, and a run that dispatches the old graph, unapproved by then, and spoils the journal |
| RuntimeWitnesses.CancelledBecomesCompleted | harness_kernel/orchestration_runtime.py:75-88 | a finished record that is revised and cancelled, and a run of the runtime built before that stores completed over it |
| RuntimeWitnesses.WriteBackUnsound | harness_kernel/orchestration_runtime.py:86-88 | a finished record to which a revision adds a node, whose state the run's write-back loses |
| Witnesses.StoppedMergeLeavesHalf | harness_kernel/subagents.py:65-72 | a stopped merge of two files that has written the first |
| Witnesses.CarriageReturnLost | harness_kernel/subagents.py:51-71 | a first merge that changes nothing, because all it adds is a carriage return, and a second that goes through |
| Witnesses.BytecodeRaises | harness_kernel/subagents.py:51 | a new file of one byte that is no UTF-8, over which no proposal can be made |
| Witnesses.IgnoredNameRefused | harness_kernel/subagents.py:33-37 | a repository and a workspace with a file named `target`, for which no proposal merges |
| Witnesses.RecordedStagnationDisagrees | agents/generation_controller.py:1361-1364 | a worker that gives its draft back: the recorded attempt resumes into another session |
| Witnesses.ResumedBeyondBudget | agents/generation_controller.py:987 | an always stagnant worker and a willing peer: the resumed run takes a second hint and ends in another session |

## Left out

- Real files, symbolic links, permissions, temporary directories and the inner structure of directories: a repository
  is a flat map; a missing parent, or a file where a parent directory should be, is not represented.
- Collisions of digests, JSON text, locks, timestamps and random identifiers.
- asyncio and threads: one event happens at a time, in any order.
- Several runtime objects of one session at once: their handles are covered by the journal theorems for any handles,
  their write-backs are not related to each other.
- OrchestrationRuntime.PersistedOrchestrationRuntime.Run: as a method it is not interleaved with store operations; those
  are in `RuntimeHistory`, whose machine has the session's events and the store's but no approval given to the session
  object itself.
- Subagents.IsolatedSubagentWorkspace.MergeReviewed: the system's own line end is a line feed; a platform that writes
  another is not modelled.
- Orchestration.OrchestrationSession.Run: `good` and the commands are what the runners and the user answer during the
  run; a run that waits for a command that never comes is the result `Waiting`.
- Checkpoints.CheckpointStore.Restore: copying the backup back is assumed to succeed.
- Attempts' artifacts, and the text of prompts, findings and messages.
- MergeQueue.SerializedMergeQueue.MergeThenRewind, Checkpoints.CheckpointStore.Rewind and
  OrchestrationRuntime.PersistedOrchestrationRuntime.RunThenReview compose the source's operations and are not in it.
- The types of journalled events: commands and scheduler events are counted, not named.
- ConfigParser.ParseYamlSubset: scalars stay text, and which inline lists raise is a parameter; splitting text into
  lines is not modelled. Dictionaries are objects by number in a growing store.
- SourceEdits.NodeSpan: columns beyond the end of a line are not related to bytes.
- Generation.RunFrom: the counter of unavailable providers, emitted events and the payload's derived fields (diff,
  edit ratio, directives, trace) are not represented, and the session's list of peer consultations only by its length;
  the whole-run theorems take max_retries >= 0.
- GenerationResume.ResumeRefinesContinuation: recorded contributions live in the controller object, not in the
  checkpoint, so a controller of another process with a split starts the schedule again and is not related to the run.
- GenerationResume.TerminalIsFinal: the contributions that a split adds to the run's payload after its terminal
  checkpoint was written (agents/generation_controller.py:241-243), and that the resumed payload is without.
- GenerationResume.RecordedAgreesIff: for a controller without peer consultant and split; the resumed call is neither
  advised nor given to the scheduled provider.
- GenerationResume.GeneratedRunsResume: a prompt the history does extend reaches only the opaque prompt builders, and
  what they then answer is not related to the run.
- The tool-calling agent, the API cost guard, the IR builder, dict conversions and the graph difference.
- Role manifests and permissions other than writing: tables.
- User interfaces, HTTP clients, sandboxes, reports, benchmarks and the detectors' own bodies.
