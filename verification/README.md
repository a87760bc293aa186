# A crash-safe coordinator for autonomous workers: its protocols, proved

The agent-team package coordinates autonomous workers through event-sourced state machines over append-only
journals. This project models those machines and the protocols that drive them, and proves what they promise over
every input, every history and every crash point.

- **Merge batches.** `MergeBatch.dfy` is the batch as a log of durable snapshots, a branch that others may push to,
  and what a running process remembers; `BranchMoves.dfy` is where its promotions start. `GitProvider.dfy` is the
  Git contract. `GitMergeBatch.dfy` is the program: a recursive, budgeted bisection with a write-ahead record of each
  promotion. A crash may come between any two records, and an append may fail with or without leaving its record
  behind.
- **Assignments.** `Assignments.dfy` is the reducer; `AssignmentStore.dfy` adds capacity; `Lineage.dfy` joins the
  reducer to the guards of the scheduler, the retry and the handoff path; `DshRuntime.dfy` is the handoff program;
  `DispatchQueue.dfy` and `Scheduler.dfy` are the fair queue and the loop that drains it.
- **Journals.** `DurableJournal.dfy` validates, writes, syncs and publishes; `LineReader.dfy` is the bounded reader
  of its lines, byte by byte through a buffer; `AppendQueue.dfy` is the chain of promises behind `append` and `close`.
- **Teams.** `TaskGraph.dfy` is the depth-first validator; `TeamProjection.dfy` replays committed events;
  `TaskBoard.dfy` and `TeamBatches.dfy` are the commands, which must only append what the replay accepts.
- **Integrations.** `IntegrationProjection.dfy` is the transition validator and `Integrations.dfy` the independent
  producer, with other callers approving and enqueueing at every wait.
- **Workspace batches.** `WorkspaceBatch.dfy` is the reducer and its two graph checks, `WorkspaceBatchRuns.dfy` the
  whole-run results and the cross-batch gate, `WorkspaceBatchStore.dfy` the store and its notices.
- **Health.** `Health.dfy` classifies and reduces, `HealthRuns.dfy` compares recording changes with recording
  everything, `HealthLimits.dfy` bounds operator calls, `HealthStore.dfy` is the program.
- **External runtimes.** `ExternalRuntime.dfy` is the runtime's own journal, `ExternalAdapter.dfy` joins it to
  assignments.
- **Shared.** `Digraph.dfy` (walks, cycles, the depth-first search used by all three graph validators), `Keyed.dfy`
  (lists of records read by id), `Texts.dfy` (required text), `Wrappers.dfy`.

Ids, commits and hashes are opaque values. A commit carries the set of commits it contains, and a branch only moves
forward. The JSON codec is any rendering without a newline that parsing undoes. Each `await` on a store is one atomic
step, and what Git, a provider, a disk or another caller answers is chosen by the environment. Time is an input.

## What the code does that its documentation does not say

- A held-back submission's diagnostic can name a prerequisite that is still pending
  (`GitMergeBatches.DiagnosticMayNamePending`, after the history of `ExampleReached`; `DiagnosticNamesExcluded` says
  exactly when it does not).
- Abandoning an integration reads the job before its write waits its turn. If the job is approved in between, the
  write is refused and stops the team's projection (`Integrations.AbandonAcceptedIff`, `Integrations.AbandonRaces`).
  Only a job that waits for a review is in danger (`Integrations.AbandonSafeIff`).
- A promotion checks the target and fast-forwards the branch in separate commands. Contrary to the comment at
  `git-merge-batching.ts:196-198`, somebody who pushes in between is not noticed as a moved target: the branch then
  moves from what was pushed, or the submissions are accepted on a branch past the verified candidate, or the
  promotion fails until the next run (`BranchMoves.PushesBehindCheck`; `PushedBefore`, `PushedPast` and `PushedBeside`
  cover every push). The move starts at the checked target if and only if nobody pushed in between
  (`BranchMoves.MoveStartsAtTarget`).
- A failed verification with an empty message, and an id such as `a.retry-1` that names another job's retry
  directory, also stop the projection (`Integrations.ProducerRefinesValidator`, `Integrations.DirectoriesCollide`).
- A task at the last safe revision can still be updated or accepted, which stops the projection
  (`TaskBoards.TeamTaskBoard.Update`, `TaskBoards.TeamTaskBoard.Accept`); the batch commands guard against this
  (`TeamBatchCommands.TeamBatches.Update`).
- The bounded journal reader counts the newline, so a limit of one byte closes a file after its first record
  (`DurableJournals.LimitOfOneRefuses`; `OpenableWithinLimit` is the exact condition).
- Acknowledging the same runtime stop twice is refused unless the turn completed (`ExternalRuntimes.RepeatedStop`).
- The health store refuses a clock that steps back only behind a recorded observation. It answers as if every
  observation were recorded exactly when the clock is not behind the attempt's own last observation
  (`HealthRuns.AnswersAlikeIff` for one call, `HealthRuns.LazyAgreesIff` for whole histories;
  `HealthRuns.ClockCheckIsWeaker` is an input where it differs).
- The assignment reducer alone bounds nothing (`Lineage.ReducerAloneUnbounded`); the bound needs the scheduler.

## Model

| member | source | states |
|---|---|---|
| MergeBatchModel.StartKeeps | packages/agent-team/src/git-merge-batching.ts:71-103 | an admissible batch starts in a state that satisfies every invariant of the protocol |
| MergeBatchModel.ApplyKeeps | packages/agent-team/src/git-merge-batching.ts:125-214 | every record, restart, push by others, check, promotion and settlement keeps the invariant: accepted closed under dependencies, branch contains what is accepted, prepared record landable, attempts within budget |
| MergeBatchModel.RunKeeps | packages/agent-team/src/git-merge-batching.ts:125-214 | the invariant holds at every moment of every legal history, crash points included |
| MergeBatchModel.SettledForever | packages/agent-team/src/git-merge-batching.ts:142-161 | between any two moments a settled outcome is unchanged, attempts never fall, and the branch loses no commit |
| MergeBatchModel.AcceptedForever | packages/agent-team/src/git-merge-batching.ts:171-178 | once accepted, a submission's dependencies are accepted and its source and receipts stay in the branch for ever |
| MergeBatchModel.PreparedProvenance | packages/agent-team/src/git-merge-batching.ts:190 | the prepared record in force was written by an earlier event of the same history |
| MergeBatchModel.BranchMovesOnlyAsPrepared | packages/agent-team/src/git-merge-batching.ts:130-141 | the protocol moves the branch only forward and only to the candidate of a record it wrote earlier, which contains the target it was checked against and all the recorded sources |
| BranchMoves.MoveStartsAtTarget | packages/agent-team/src/git-integration-provider.ts:100-109 | every promotion follows a check that found the branch at the recorded target; it starts there itself if and only if nobody pushed between the check and the fast-forward, and otherwise at what was pushed, which the candidate contains |
| BranchMoves.PushedBefore | packages/agent-team/src/git-integration-provider.ts:101-108 | after any push behind the check of something the candidate contains, the fast-forward succeeds from there and the prepared submissions are accepted |
| BranchMoves.PushedPast | packages/agent-team/src/git-integration-provider.ts:101-108 | after any push behind the check of something that contains the candidate, they are accepted without a move, on a branch that holds more than was verified |
| BranchMoves.PushedBeside | packages/agent-team/src/git-merge-batching.ts:130-141 | after any other push behind the check the promotion can only fail, the record stays, and the next run drops it |
| BranchMoves.PushesBehindCheck | packages/agent-team/src/git-merge-batching.ts:195-202 | a concrete batch and history in which each of the three pushes happens |
| MergeBatchModel.PromotedOnce | packages/agent-team/src/git-merge-batching.ts:190-205 | two promotions of one history never lead to the same commit: no candidate lands twice |
| MergeBatchModel.AcceptedExactlyPrepared | packages/agent-team/src/git-merge-batching.ts:135-136 | a submission is accepted if and only if some acceptance found it in the prepared record in force |
| MergeBatchModel.RejectedAlone | packages/agent-team/src/git-merge-batching.ts:181-183 | a rejected submission failed a check of itself alone |
| MergeBatchModel.CheckProvenance | packages/agent-team/src/git-merge-batching.ts:179-189 | the check result the process remembers comes from a verification of exactly those submissions |
| MergeBatchModel.ExcludedForever | packages/agent-team/src/git-merge-batching.ts:155-161 | a submission is held back only over a prerequisite that is rejected or blocked, and that stays so |
| MergeBatchModel.DirectoriesDistinct | packages/agent-team/src/git-merge-batching.ts:166-167 | each composition directory belongs to one attempt number, larger than all before |
| MergeBatchModel.ChecksWithinBudget | packages/agent-team/src/git-merge-batching.ts:162-167 | over the whole life of a batch, restarts included, at most maxSplitAttempts stacks are verified |
| GitProvider.GitIntegrationProvider.Contains | packages/agent-team/src/git-integration-provider.ts:62-65 | a positive answer proves that the target contains the source |
| GitProvider.GitIntegrationProvider.VerifyStack | packages/agent-team/src/git-integration-provider.ts:76-98 | a candidate contains the target and all given sources, which are nonempty and distinct |
| GitProvider.GitIntegrationProvider.Promote | packages/agent-team/src/git-integration-provider.ts:100-109 | the branch is checked against the expected target, and a moved target is reported and left alone; then, from whatever others have made of it meanwhile, it moves only forward and only to the candidate |
| GitProvider.GitIntegrationProvider.FastForward | packages/agent-team/src/git-integration-provider.ts:108 | nothing to do when the branch contains the candidate, an error when neither contains the other, otherwise the branch becomes the candidate |
| GitMergeBatches.SelectedAre | packages/agent-team/src/git-merge-batching.ts:150 | selecting by an ordered list of ids gives exactly those submissions in that order |
| GitMergeBatches.HeldBackOver | packages/agent-team/src/git-merge-batching.ts:155-158 | what holds a selected submission back is an excluded prerequisite, never one that is merely pending |
| GitMergeBatches.NoneHeldBack | packages/agent-team/src/git-merge-batching.ts:152-156 | with nobody held back, selected and accepted submissions are closed under dependencies |
| GitMergeBatches.SelectableFirst | packages/agent-team/src/git-merge-batching.ts:184-185 | the first half of a stack has all its dependencies settled or in the same half |
| GitMergeBatches.SelectableSecond | packages/agent-team/src/git-merge-batching.ts:186 | once the first half is settled, the second half has all its dependencies settled or selected |
| GitMergeBatches.IsolatedBounded | packages/agent-team/src/git-merge-batching.ts:148-206 | isolating n pending submissions with m refused promotions verifies at most 2n-1+m stacks, and blocks none for budget when that much budget is left |
| GitMergeBatches.GitMergeBatch.MissingReceipt | packages/agent-team/src/git-merge-batching.ts:171-178 | either every receipt of the stack is in the target, or the first submission with an unproven one is named |
| GitMergeBatches.GitMergeBatch.Land | packages/agent-team/src/git-merge-batching.ts:191-205 | after a promotion exactly the prepared ids are accepted; after a moved target the record is dropped and nothing else changes; after a failure the record stays for the next run |
| GitMergeBatches.GitMergeBatch.Isolate | packages/agent-team/src/git-merge-batching.ts:148-206 | terminates whatever Git and others do; settles all given submissions when it finishes, touches no other, and stays within attempts 2n-1+m |
| GitMergeBatches.GitMergeBatch.LandComposed | packages/agent-team/src/git-merge-batching.ts:190-205 | the record precedes the promotion, and a moved target starts the same submissions over on the new target |
| GitMergeBatches.GitMergeBatch.Replay | packages/agent-team/src/git-merge-batching.ts:130-141 | a restart lands exactly the prepared submissions or drops the record, and charges no attempt |
| GitMergeBatches.GitMergeBatch.Run | packages/agent-team/src/git-merge-batching.ts:125-146 | a normal return leaves nothing pending and nothing prepared, within the bound for the submissions pending at the start |
| GitMergeBatches.GitMergeBatch.SafeAtAnyMoment | packages/agent-team/src/git-merge-batching.ts:125-214 | the whole-history results hold of a running batch object at every moment of its own log |
| GitMergeBatches.DiagnosticNamesExcluded | packages/agent-team/src/git-merge-batching.ts:158 | the diagnostic names an excluded prerequisite if and only if no pending one is listed before the first excluded one |
| GitMergeBatches.ExampleReached | packages/agent-team/src/git-merge-batching.ts:162-189 | a concrete batch whose run splits three submissions down to the broken one, rejects it and dies: the history is legal and leaves the two others pending with nothing prepared |
| GitMergeBatches.DiagnosticMayNamePending | packages/agent-team/src/git-merge-batching.ts:155-158 | in the snapshot this history reaches, the next run holds one submission back over the rejected one, and its diagnostic blames the other, which is still pending |
| Assignments.ReplayKeeps | packages/agent-team/src/assignments.ts:118-258 | in every reachable journal a task's generations are 1..k with all but the last terminal and one set of limits, no worker has two live attempts, no runtime or attempt id repeats, and endings are counted in order |
| Assignments.ReserveKeeps | packages/agent-team/src/assignments.ts:120-168 | a reservation keeps exclusive ownership and numbering |
| Assignments.MutationShape | packages/agent-team/src/assignments.ts:169-257 | a mutation either changes nothing or advances exactly one live attempt, named by a token of its current revision |
| Assignments.TerminalForever | packages/agent-team/src/assignments.ts:172-177 | over any later part of a history attempts are never removed or rewritten once terminal, and revisions only rise |
| Assignments.SpentToken | packages/agent-team/src/assignments.ts:178-186 | a token that once changed an attempt never changes anything again |
| AssignmentStores.LiveWithinLimits | packages/agent-team/src/assignments.ts:290-305 | over any history of reservations, limit changes and endings, live attempts never exceed the largest limits in force, globally and per project |
| AssignmentStores.AssignmentStore.Reserve | packages/agent-team/src/assignments.ts:292-305 | succeeds if and only if there is capacity under the limits in force and the reducer accepts; otherwise changes nothing |
| AssignmentStores.AssignmentStore.Mutate | packages/agent-team/src/assignments.ts:356-360 | returns the mutated attempt exactly when the reducer accepts; otherwise changes nothing |
| Lineage.StepScheduled | packages/agent-team/src/coordinator-execution.ts:587-589 | every reservation of the scheduler, the retry and the handoff path replaces only a repairable, interrupted, failed-to-start or handed-off attempt |
| Lineage.ReplacementPaid | packages/agent-team/src/assignments.ts:130-158 | each replacement is paid from exactly one of four pinned budgets |
| Lineage.ExecuteKeeps | packages/agent-team/src/coordinator-execution.ts:1112-1138 | every run of workers, scheduler, retries and handoffs keeps every attempt within its budgets |
| Lineage.BoundedLineage | packages/agent-team/src/coordinator-execution.ts:916-926 | a generation never exceeds 1 + repairs + max(0, repairs-1) + provisioning retries + handoffs |
| Lineage.ReducerAloneUnbounded | packages/agent-team/src/assignments.ts:120-168 | for every n the reducer alone accepts n generations of one task |
| DshRuntimes.ReplayChained | packages/agent-team/src/assignments.ts:153-158 | every handed-off attempt is the very worker, runtime and round that its stopped predecessor's intent named |
| DshRuntimes.OneReplacement | packages/agent-team/src/dsh-assignment-runtime.ts:150-161 | over any history an attempt gets at most one handoff replacement |
| DshRuntimes.ReplayConsumed | packages/agent-team/src/assignments.ts:153-158 | in every reachable journal a task goes on after an authorized handoff only with the replacement that its intent named |
| DshRuntimes.DshAssignmentRuntime.Intend | packages/agent-team/src/dsh-assignment-runtime.ts:136-149 | an existing intent is used unchanged; a new one is written if and only if the attempt is active, within its handoff limit, and has a worktree to point to; otherwise nothing is |
| DshRuntimes.DshAssignmentRuntime.Stop | packages/agent-team/src/dsh-assignment-runtime.ts:152-173 | a live predecessor is retired, on a stop receipt, if and only if its runtime drained, and nothing else of it changes; a terminal one is left alone |
| DshRuntimes.DshAssignmentRuntime.ResumeHandoff | packages/agent-team/src/dsh-assignment-runtime.ts:133-163 | whatever record an earlier call died behind, what is returned is the one and only replacement of that predecessor; one is returned whenever it exists already, or the runtime drained, no crash came, the named worker and runtime are free and there is room once the predecessor has given its slot back |
| Schedulers.Scheduler.DispatchLoop | packages/agent-team/src/coordinator-execution.ts:572-602 | the loop ends, offers each queued request at most once, and live attempts stay within the capacity, in all and in every project |
| Schedulers.Scheduler.Admit | packages/agent-team/src/coordinator-execution.ts:584-601 | admitting one request keeps live attempts within the capacity, in all and in every project, and an unreachable lead gives the reservation back |
| DispatchQueues.Choose | packages/agent-team/src/dispatch-queue.ts:74-88 | something is chosen exactly when the fence has passed and a candidate is open; its project has waited longest, and it is that project's highest priority, then oldest |
| DispatchQueues.Fair | packages/agent-team/src/dispatch-queue.ts:78-84 | a project that stays eligible is picked before ordinary selections number as many as the projects, whatever else happens to the queue |
| DispatchQueues.Spaced | packages/agent-team/src/dispatch-queue.ts:63-77 | any k+1 selections span at least k intervals, whatever the clock reads |
| DispatchQueues.SelectionAccepted | packages/agent-team/src/dispatch-queue.ts:37-38 | a selection that passed the fence is never refused by the reducer |
| DispatchQueues.DispatchQueue.Enqueue | packages/agent-team/src/dispatch-queue.ts:51-55 | work is queued once and keeps its first place |
| DispatchQueues.DispatchQueue.SelectExact | packages/agent-team/src/dispatch-queue.ts:63-71 | an operator's choice is taken exactly when the fence has passed and the request is open |
| LineReaders.CompleteFile | packages/agent-team/src/durable-journal.ts:98 | a file has no unterminated rest exactly when it is empty or ends in a newline |
| LineReaders.ReadBounded | packages/agent-team/src/durable-journal.ts:73-98 | for every content, limit and read size, the byte loop replays exactly the newline-separated records within the limit, or refuses |
| LineReaders.ReadChunk | packages/agent-team/src/durable-journal.ts:84-96 | one buffer replays every record that ends in it and carries the unterminated rest, never more than the limit |
| LineReaders.PrefixDecides | packages/agent-team/src/durable-journal.ts:77-79 | refusing a prefix of the file decides the whole file |
| DurableJournals.SequenceCounts | packages/agent-team/src/durable-journal.ts:51-59 | the replayed sequence number is the number of records |
| DurableJournals.ReopenedAfterCrash | packages/agent-team/src/durable-journal.ts:63-69 | a file with a torn last line reopens as the acknowledged state, as that state plus exactly the event in flight, or is refused as incomplete |
| DurableJournals.OpenableWithinLimit | packages/agent-team/src/durable-journal.ts:77-93 | after an acknowledged event the file stays readable under a limit if and only if the event's line fits it |
| DurableJournals.LimitOfOneRefuses | packages/agent-team/src/durable-journal.ts:77-79 | under a limit of one byte the first record makes the file unreadable |
| DurableJournals.DurableJournal.Append | packages/agent-team/src/durable-journal.ts:107-124 | an append is accepted if and only if the journal is not closing, behind every append accepted before it |
| DurableJournals.DurableJournal.Perform | packages/agent-team/src/durable-journal.ts:109-121 | when its turn comes, an append publishes only what is validated, written and synced; a failed write changes no state and refuses everything after; the file stays held, whatever appends and closes arrive meanwhile |
| DurableJournals.DurableJournal.Close | packages/agent-team/src/durable-journal.ts:126-128 | from the first close on nothing is accepted, and later closes wait on the same promise |
| DurableJournals.DurableJournal.CloseAndRelease | packages/agent-team/src/durable-journal.ts:126-128 | a close always ends with the file given up, behind every accepted append |
| DurableJournals.Open | packages/agent-team/src/durable-journal.ts:43-102 | opens exactly the files whose records replay in sequence (and fit the limit), in the state they fold to |
| DurableJournals.CrashAndReopen | packages/agent-team/src/durable-journal.ts:106-124 | after any crash every acknowledged append survives, at most the uncertain one is added, and only an uncertain write can leave a refused file |
| AppendQueues.RunKeeps | packages/agent-team/src/durable-journal.ts:109-128 | although each append, and the close, waits only on the one promise made last before it, in every run everything before an append that has started has settled |
| AppendQueues.ReleasedBehindAppends | packages/agent-team/src/durable-journal.ts:109-128 | at most one append runs, and the file is released only after the last accepted append has settled, after which none starts |
| AppendQueues.RunningHolds | packages/agent-team/src/durable-journal.ts:122-128 | while an append runs the file cannot be released, and nothing but that append can settle |
| Digraphs.CheckAcyclic | packages/agent-team/src/task-graph.ts:54-68 | the depth-first search ends and accepts exactly the graphs without a cycle |
| Digraphs.Visitor.Visit | packages/agent-team/src/coordinator-batches.ts:95-103 | visiting a node reports a cycle only if there is one, and otherwise finishes the node behind all it depends on |
| Digraphs.IndependentNode | packages/agent-team/src/task-graph.ts:54-68 | in an acyclic graph every nonempty set of nodes has one that depends on none of the set |
| TaskGraphs.AssertTaskGraphCandidate | packages/agent-team/src/task-graph.ts:26-69 | accepts if and only if every active task's blockers are distinct, active and not itself and no active task waits for itself; each violation is reported for a defect that is there |
| TaskGraphs.CheckBlockers | packages/agent-team/src/task-graph.ts:33-52 | one task's blockers pass exactly when distinct, active and not itself, and each refusal names its true cause |
| TaskGraphs.SomeTaskIsReady | packages/agent-team/src/task-board.ts:403-405 | in an accepted graph with unfinished work, some unfinished task has only completed blockers |
| TaskGraphs.DeleteKeeps | packages/agent-team/src/task-board.ts:338-350 | deleting a task that blocks no active task keeps the graph accepted |
| TaskGraphs.CreateKeeps | packages/agent-team/src/task-board.ts:106-116 | a new task with checked blockers never closes a cycle |
| TeamProjections.TaskKeeps | packages/agent-team/src/projection.ts:439-500 | an accepted task snapshot keeps the graph, evidence, bindings, numbering and active batches sound |
| TeamProjections.BatchKeeps | packages/agent-team/src/projection.ts:393-413 | an accepted batch snapshot keeps active batches free of deleted tasks |
| TeamProjections.ReplayKeeps | packages/agent-team/src/projection.ts:317-331 | every event history, refused events included, leads to a sound state |
| TeamProjections.WorkNeverDeadlocks | packages/agent-team/src/task-board.ts:403-405 | in no reachable state is all unfinished work blocked |
| TeamProjections.BindingsForever | packages/agent-team/src/projection.ts:446-475 | criteria, gates and bindings of a task never change, and a factory's task is never edited or revived |
| TeamProjections.TeamProjection.AcceptsTask | packages/agent-team/src/projection.ts:439-488 | decides a task snapshot exactly, the graph search included |
| TeamProjections.TeamProjection.AcceptsBatch | packages/agent-team/src/projection.ts:393-403 | decides a batch snapshot exactly |
| TeamProjections.TeamProjection.Apply | packages/agent-team/src/projection.ts:317-331 | the lists changed in place are the replayed state; a refused event changes nothing and stops the projection for good |
| TaskBoards.CheckDependencies | packages/agent-team/src/task-board.ts:366-384 | accepts exactly distinct, active blockers without the task itself, and each refusal names its true cause |
| TaskBoards.NextLawful | packages/agent-team/src/task-board.ts:270-350 | whatever action is taken, work starts or changes hands only when ready, only its owner or the lead completes it, evidence is kept, nothing depended on is deleted, and members give only themselves work |
| TaskBoards.NextAllowed | packages/agent-team/src/task-board.ts:355-360 | an action's snapshot satisfies the replay's rules, and its persisted form exactly below the last safe revision |
| TaskBoards.OnlyDependenciesChangeGraph | packages/agent-team/src/task-board.ts:359 | the graph check of an update can fail only for a change of dependencies |
| TaskBoards.NumbersRunOut | packages/agent-team/src/task-board.ts:102-105 | a fresh task number is taken only when numbers have run out |
| TaskBoards.CreatedAccepted | packages/agent-team/src/task-board.ts:106-117 | the replay accepts every new task with checked blockers |
| TaskBoards.AcceptedAllowed | packages/agent-team/src/task-board.ts:179-181 | an acceptance satisfies the replay without a graph check of its own |
| TaskBoards.TeamTaskBoard.Create | packages/agent-team/src/task-board.ts:92-120 | creates under a fresh id exactly when role, limits, texts and blockers allow, never stops the projection, and otherwise changes nothing |
| TaskBoards.TeamTaskBoard.CreatePinned | packages/agent-team/src/task-board.ts:127-165 | succeeds if and only if a lead brings valid inputs and either the key is known with the same inputs, which changes nothing, or there is room for a new task; never stops the projection |
| TaskBoards.TeamTaskBoard.Accept | packages/agent-team/src/task-board.ts:168-208 | accepts if and only if granted evidence of the right kind, with a receipt that fits, meets an unowned pending task at the expected revision whose blockers are completed, or repeats the receipt it has; such an acceptance stops the projection if and only if that revision is the last safe one |
| TaskBoards.DecidedSound | packages/agent-team/src/task-board.ts:251-358 | whatever one compare-and-set transition decides is lawful, one revision later, and allowed by the replay, in its persisted form exactly below the last safe revision; only a change of dependencies can still fail the graph check |
| TaskBoards.TeamTaskBoard.Transition | packages/agent-team/src/task-board.ts:251-358 | succeeds if and only if the transition is decided, with that snapshot; a stale revision, a deleted, unknown or managed task are reported as such |
| TaskBoards.TeamTaskBoard.Update | packages/agent-team/src/task-board.ts:244-363 | succeeds if and only if the transition is decided and its new dependencies, if any, close no cycle; then it applies exactly the decided snapshot, except that on top of the last safe revision, and only there, it stops the projection |
| TeamBatchCommands.TeamBatches.Create | packages/agent-team/src/batches.ts:30-50 | creates a batch exactly when role, limit, texts and tasks allow, and never stops the projection |
| TeamBatchCommands.TeamBatches.Update | packages/agent-team/src/batches.ts:58-82 | edits or archives, with exactly the given fields, if and only if a lead changes something of an open batch at its expected revision, below the last safe one, with texts that fit and active tasks; never stops the projection |
| Texts.RequiredText | packages/agent-team/src/validation.ts:12-19 | a required text is stored nonblank and within its limit, and refused as empty exactly when blank |
| IntegrationProjections.NextOk | packages/agent-team/src/integration-projection.ts:49-104 | an accepted transition leaves phase fields, receipts, retry directories and history consistent |
| IntegrationProjections.PutKeeps | packages/agent-team/src/projection.ts:357-381 | accepted snapshots keep candidate directories of different jobs disjoint, retained ones included |
| IntegrationProjections.ReplayKeeps | packages/agent-team/src/projection.ts:357-381 | this holds after every accepted history |
| IntegrationProjections.HistoryGrows | packages/agent-team/src/integration-projection.ts:58-80 | over any history a job's inputs never change, its verified candidates are only added to, and a finished job never changes: a merged job keeps the target and candidate it was verified with |
| IntegrationProjections.FourCandidates | packages/agent-team/src/integration-projection.ts:63-69 | a job has at most four candidates, each in its own directory |
| IntegrationProjections.GatedMerge | packages/agent-team/src/integration-projection.ts:83-96 | a gated job that merged holds a receipt for exactly the merged source, target and candidate |
| Integrations.ProducerRefinesValidator | packages/agent-team/src/integrations.ts:181-240 | every snapshot run and approve write on what they read satisfies the validator, whatever the provider did; only an empty error text can still be refused |
| Integrations.AbandonAcceptedIff | packages/agent-team/src/integrations.ts:249-263 | an abandonment is accepted if and only if the job was not approved between its read and its write |
| Integrations.AbandonSafeIff | packages/agent-team/src/integrations.ts:249-263 | whatever others do in between, an abandonment is accepted, if and only if the job that was read does not wait for a review |
| Integrations.AbandonRaces | packages/agent-team/src/integrations.ts:255-259 | a concrete approval in between that makes the abandonment refused |
| Integrations.DirectoriesCollide | packages/agent-team/src/integrations.ts:230-234 | a concrete admitted id whose directory is another job's retry directory |
| Integrations.TeamIntegrations.Enqueue | packages/agent-team/src/integrations.ts:67-100 | succeeds if and only if a known id comes with the same inputs, which changes nothing, or a new one has a workspace and room; stops the projection if and only if the new directory is another job's |
| Integrations.TeamIntegrations.Approve | packages/agent-team/src/integrations.ts:147-173 | succeeds if and only if the job already has this very receipt, or has none and an authorized one binds its verified candidate; never stops the projection |
| Integrations.TeamIntegrations.Run | packages/agent-team/src/integrations.ts:181-240 | under any provider, disk and concurrent callers: merges only after promotion and, if gated, with a binding receipt; stops the projection if and only if what the provider or the disk answers leads to an empty error text, or to a retry in a directory that another job owns |
| Integrations.TeamIntegrations.VerifyQueued | packages/agent-team/src/integrations.ts:197-213 | ends in a durable verified candidate or a recorded failure |
| Integrations.TeamIntegrations.PromoteVerified | packages/agent-team/src/integrations.ts:219-236 | asks for a promotion only of what is durably verified and approved, then merges, retries or fails |
| Integrations.TeamIntegrations.Abandon | packages/agent-team/src/integrations.ts:249-263 | succeeds if and only if nothing runs, a reason is given and the job is unfinished; stops the projection if and only if the job was approved in between, and never when it does not wait for a review |
| WorkspaceBatches.RevisionOrder | packages/agent-team/src/coordinator-batches.ts:59-61 | observation revisions are totally ordered and equal only when all components are |
| WorkspaceBatches.ValidateGraph | packages/agent-team/src/coordinator-batches.ts:88-104 | accepts exactly items with distinct refs and dependencies inside the batch and no cycle |
| WorkspaceBatches.ValidateWorkspaceGraph | packages/agent-team/src/coordinator-batches.ts:106-122 | accepts exactly when the edges of all batches together have no cycle |
| WorkspaceBatches.ProgressedOk | packages/agent-team/src/coordinator-batches.ts:163-168 | after an observation the phase is derived from the items, the epoch counts the completions, and completions alternate with reopenings |
| WorkspaceBatches.ApplyKeeps | packages/agent-team/src/coordinator-batches.ts:123-194 | every event keeps phases, epochs, the shared graph and the notices consistent |
| WorkspaceBatches.ReceiveKeeps | packages/agent-team/src/coordinator-batches.ts:186-193 | a receipt marks exactly one notice, and never a suppressed one |
| WorkspaceBatchRuns.RunKeeps | packages/agent-team/src/coordinator-batches.ts:143-194 | in every reachable state each pending notice belongs to a batch complete at that very epoch, there is at most one per batch, subscription and epoch, and none is both delivered and suppressed |
| WorkspaceBatchRuns.RunGrows | packages/agent-team/src/coordinator-batches.ts:151-162 | over any run observed revisions never fall, one revision never shows two states, epochs and histories only grow, and a delivered or suppressed notice stays so |
| WorkspaceBatchRuns.WorkspaceBatchBlocker | packages/agent-team/src/coordinator.ts:647-655 | blocks a task if and only if some batch still awaits one of its dependencies, and names exactly those |
| WorkspaceBatchRuns.SomeTaskIsUnblocked | packages/agent-team/src/coordinator.ts:647-655 | while some task is unaccepted in some batch, one such task is blocked by no batch |
| WorkspaceBatchStores.CoordinatorBatchStore.Create | packages/agent-team/src/coordinator-batches.ts:202-210 | creates a waiting batch exactly when id, subscriptions and both graphs allow |
| WorkspaceBatchStores.DueAccepted | packages/agent-team/src/coordinator-batches.ts:176-184 | the reducer never refuses the notice that a standing completion owes |
| WorkspaceBatchStores.CoordinatorBatchStore.NotificationIntents | packages/agent-team/src/coordinator-batches.ts:228-242 | with others writing at every wait it never fails and hands out only current notices; alone it leaves no owed notice out |
| HealthRuns.AnswersAlikeIff | packages/agent-team/src/health.ts:223 | in any two corresponding states, the store that skips unchanged observations answers as one that records them all, if and only if the clock does not read earlier than this attempt's own last observation while reading no earlier than its last recorded one |
| HealthRuns.LazyAgreesIff | packages/agent-team/src/health.ts:219-262 | over every history, whatever the clock reads, both stores decide alike throughout if and only if no observation steps back like this |
| HealthRuns.LazyRefinesEager | packages/agent-team/src/health.ts:219-262 | in particular they do for every history that observes each attempt in its own time order: the same classes, certainties, deadlines, calls, cooldowns, resolutions and refusals |
| HealthRuns.ClockCheckIsWeaker | packages/agent-team/src/health.ts:223 | a concrete history that steps back in time, refused exactly when every observation is recorded |
| HealthLimits.StaleIff | packages/agent-team/src/health.ts:107-116 | an attempt is stale if and only if it is live and reachable without new progress and the pinned deadline has passed since the progress on record |
| HealthLimits.RunPaced | packages/agent-team/src/health.ts:249-260 | in every reachable state calls per attempt and condition stay within the pinned number, are spaced by the cooldown, and all but the last are resolved |
| HealthLimits.PinnedForever | packages/agent-team/src/health.ts:150-159 | an attempt's first deadline, cooldown and limit hold for ever, its deadline moves only with progress, and a resolved call stays resolved |
| HealthStores.HealthStore.Assess | packages/agent-team/src/health.ts:219-262 | appends one by one exactly what the lazy assessment specifies; the journal refuses none of it |
| HealthStores.HealthStore.ClearAcceptedAttempt | packages/agent-team/src/health.ts:290-294 | clears an attempt once, resolving exactly its open calls |
| HealthStores.HealthStore.ClearHandoffAttempt | packages/agent-team/src/health.ts:297-303 | resolves exactly the retired attempt's open stale calls |
| ExternalRuntimes.ReplayKeeps | packages/agent-team/src/external-runtime.ts:173-246 | a runtime keeps capacity exactly while it has no terminal receipt, "completed" implies a clean exit, thread, result, finished turn and no cancellation, and "cancelled" holds exactly for ended cancelled runtimes |
| ExternalRuntimes.ReplayGrows | packages/agent-team/src/external-runtime.ts:188-246 | identities, exits, receipts and fences never change: a cancelled runtime never gains a result and an ended one stays as it ended |
| ExternalRuntimes.CompletedIff | packages/agent-team/src/external-runtime.ts:234-243 | a stop completes a runtime if and only if it was not cancelled and both sides prove a clean finish |
| ExternalRuntimes.RepeatedStop | packages/agent-team/src/external-runtime.ts:237-240 | acknowledging the same stop again is accepted if and only if the turn was seen to complete |
| ExternalAdapters.RunReleased | packages/agent-team/src/external-assignment-adapter.ts:103-188 | over any interleaving of both journals, an external attempt ended as "stopped" has a runtime with that terminal receipt, and one ended as "never started" has no launch intent |
| ExternalAdapters.LaunchKeepsIff | packages/agent-team/src/external-assignment-adapter.ts:62-85 | intending a launch keeps every proof if and only if no external attempt of that key has ended |
| ExternalAdapters.ReleasedHoldsNothing | packages/agent-team/src/external-assignment-adapter.ts:146-188 | a released external attempt retains no runtime capacity |
| ExternalAdapters.ExternalAssignmentAdapter.Reconcile | packages/agent-team/src/external-assignment-adapter.ts:146-188 | a terminal receipt always ends the attempt and nothing else does; a completed runtime's result is reported without a stop reason |
| ExternalAdapters.ExternalAssignmentAdapter.Cancel | packages/agent-team/src/external-assignment-adapter.ts:132-144 | every ending it writes is proved; a started attempt without a launch intent keeps its capacity |
| ExternalAdapters.ExternalAssignmentAdapter.InterruptForShutdown | packages/agent-team/src/external-assignment-adapter.ts:103-130 | reports success only once the attempt is terminal, on proof |
| ExternalAdapters.ExternalAssignmentAdapter.Start | packages/agent-team/src/external-assignment-adapter.ts:62-71 | without an earlier launch intent, the first record that either journal gains is this one, and every proof is kept |

## Left out

- GitMergeBatches.GitMergeBatch.Run: the hooks around a promotion, and the comparison of targets and verification policies between submissions, are not modelled.
- GitMergeBatches.GitMergeBatch.Update: after an uncertain write the process may go on to read its memory; here it stops and restarts from the journal.
- LineReaders.ReadChunk: works on a copy of the filled part of the buffer, so views into a reused buffer are not modelled; UTF-8 decoding is part of the codec.
- DurableJournals.Open: acquiring the file and its directory is not modelled; the reader is given the owned file.
- Schedulers.Scheduler.DispatchLoop: what makes a request ready, starting an attempt and blocking a request are choices of the environment.
- Lineage.ReplacementPaid: relies on the scheduler's guard (`Scheduled`); legacy attribution of health recoveries takes its counts as given and spends no replacement budget.
- DshRuntimes.DshAssignmentRuntime.ResumeHandoff: draining a runtime and reading its worktree are answers of the environment.
- TaskBoards.TeamTaskBoard.CreatePinned: the formats of admission keys, artifact names and commits are checked before this model; write scopes arrive normalized.
- TaskBoards.TeamTaskBoard.Update: resolving a new owner's name is an input; the derived view is not modelled.
- Integrations.TeamIntegrations.Enqueue: quiescence of the worker and resolving its commit happen before; external admission differs only in where the workspace comes from.
- Integrations.TeamIntegrations.Run: taking ownership of the branch, cancellation signals and a failed flush after the last record are not modelled; providers are taken to return commits and paths of the form the schema asks for; an admission in between whose own directory is taken is left out, since it stops the projection by itself (`Enqueue`).
- WorkspaceBatches.ApplyKeeps: covers the notices the store itself writes (digest ids, distinct subscriptions); legacy revision encodings are not modelled.
- HealthRuns.LazyRefinesEager: escalation ids, the recorded work state, the time of the last observation and the diagnostic text may differ between the two stores; acknowledgements and factory escalations are not modelled.
- ExternalAdapters.ExternalAssignmentAdapter.Start: takes the attempt as the assignment journal holds it now; a start on a stale record is what `LaunchKeepsIff` excludes.
- ExternalAdapters.ExternalAssignmentAdapter.InterruptForShutdown: polls a given number of times instead of until a deadline.
- ExternalRuntimes.ReplayKeeps: provider usage is one number; launch identity, admission and spool are one opaque intent.
- Team members, worktrees, recoveries and messages of the projection: their cases are independent of tasks, batches and integrations.
- Roster, mailbox, supervisor, submissions, reports, candidate retention, batch registry, project catalog, workflows and dashboards: plumbing, or small linear logs.
- Git, file locks, process supervision, schema parsing and remote transport: only the contracts named above are kept.
