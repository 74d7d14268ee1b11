# Verified model of the ax daemon and its configuration

ax runs teams of coding agents. A daemon holds their tasks, inboxes, wake-up schedule, durable memories and
team layout; a tree of configuration files says which agents exist; small text transforms write the agents' own
configuration and command lines. This project models that logic in Dafny and proves what it guarantees.

The pattern is the same throughout. An operation is a function on values (maps of records, sequences of messages).
The stores and loops of the daemon are classes and methods that work in place and are proved to compute these
functions. The guarantees are lemmas about the functions: what one call does, what every call keeps, and what holds
over every run, a run being any sequence of calls with any arguments, including calls that are refused and writes
that fail.

| file | what it covers |
|---|---|
| `Prelude`, `TaskIds` | optional values, time, string trimming, the key order of ordered maps, the task id in a message body |
| `TaskModel`, `TaskInvariants`, `TaskSteps`, `TaskRuns`, `TaskEffects`, `TaskStore` | tasks: operations, invariants, runs, effects, the store in place |
| `QueueModel`, `QueueLaws`, `FlushProtocol`, `MessageQueue` | inboxes: conservation and order, flushing under interleaving, the queue in place |
| `WakeScheduler` | wake-ups with backoff, and passes interleaved with other calls |
| `Broker`, `ReconcileLaws`, `BrokerLoops` | refill and reconciler over all stores together |
| `ConfigModel`, `ConfigLaws`, `ConfigMounts`, `ConfigFlat`, `ConfigLoader`, `ConfigValidation` | the configuration tree: loading, flat loading, validation |
| `TeamOverlay`, `TeamLeases` | team reconfiguration: the overlay language, revisions and leases |
| `MemoryModel`, `MemoryStore` | durable memories and their supersession |
| `TomlUpsert`, `ShellQuote` | text transforms |

Conventions. An instant is a whole number of nanoseconds. The clock, fresh identifiers, the success of a disk
write, the state of terminal sessions and the content of files are parameters. A fresh task id is UUID-shaped, not
in use and not the parent asked for. Ordered maps hand out their keys in ascending order. A failed write is reported
but leaves the change in memory, as in the code, except for memories, where it is undone.

Some promises one might expect hold only under a condition. Each is stated with that condition, exact unless noted
here, and with inputs that break it:

- A written TOML line can read as a section header; it is then not read back, and can cut off the keys below it.
- Listed in pre-order, the flat and the tree names of workspaces differ below an empty prefix inside a non-empty one.
  For the flat map that condition is sufficient, not necessary.
- A team's plan is computed before the lease table is locked, and a finish reads and writes the stored state after
  letting go of the lock, so a commit in either gap makes the revision lose count and loses an overlay.
- A redeemed lease token becomes good again when the team is granted twice at one instant.
- A refill into an empty inbox leaves tasks without a message when there are more of them than the cap. For an inbox
  that is not empty only a sufficient condition is given.
- A workspace that is scheduled while a pass is about to fire it is attempted at once rather than five seconds later.

## Model

| member | source | states |
|---|---|---|
| `TaskRuns.VersionIdentifiesContent` | crates/ax-daemon/src/task_store.rs:191-661 | Over every run, including the parent edits that child operations cause, a task's version never decreases, and two moments show the same version exactly when they show the same record |
| `TaskRuns.ExpectedVersionGuards` | crates/ax-daemon/src/task_store.rs:856-884 | A cancel, remove or retry that names a version read at any earlier moment and is accepted acts on exactly the record that was read |
| `TaskRuns.RollupsAlwaysAgree` | crates/ax-daemon/src/task_store.rs:1007-1108 | In every reachable state child lists and parent fields are inverse to each other without repetition, no task is its own ancestor, and the counters of every task that is not removed equal a recount over its children, all statuses adding up to the total |
| `TaskRuns.ForestIsAcyclic` | crates/ax-daemon/src/task_store.rs:252-322 | Parent links form a forest: no chain of parents returns to its start, and every chain ends |
| `TaskRuns.FinalStatesAreFinal` | crates/ax-daemon/src/task_store.rs:886-923 | Over every run completed, failed and cancelled are absorbing, a removed task is terminal and never changes again, logs only grow at the end, and the brief never changes |
| `TaskRuns.CompletionIsExplicit` | crates/ax-daemon/src/task_store.rs:787-854 | Whenever a task becomes completed, the step is one update by its assignee with confirmation, and the resulting text holds the leftover-scope marker |
| `TaskRuns.ClaimDiscipline` | crates/ax-daemon/src/task_store.rs:953-970 | In every reachable state, work in progress, blocked, completed or failed is claimed by its assignee, attempts equal released claims plus the one held, and a runnable task holds none |
| `TaskRuns.RunInvariant` | crates/ax-daemon/src/task_store.rs:191-661 | The forest, rollup and record invariants hold in every state of every run |
| `TaskSteps.ApplyKeeps` | crates/ax-daemon/src/task_store.rs:191-661 | Every operation, accepted or refused, keeps the forest, the rollups and each record's own rules, and moves each record forward |
| `TaskSteps.NewcomersAreNew` | crates/ax-daemon/src/task_store.rs:252-322 | Only a creation adds a record, and it is the pending, unclaimed one that was asked for |
| `TaskInvariants.RefreshRepairs` | crates/ax-daemon/src/task_store.rs:1007-1049 | A refresh repairs the rollup it recomputes and spoils no other, so refreshing direct parents is enough |
| `TaskInvariants.CreateKeeps` | crates/ax-daemon/src/task_store.rs:252-322 | A creation under a parent, refused or not, keeps the forest and all rollups |
| `TaskInvariants.RecoverKeeps` | crates/ax-daemon/src/task_store.rs:191-250 | A sweep that resets many tasks and then refreshes their parents once keeps all rollups |
| `TaskEffects.UpdateAcceptedIff` | crates/ax-daemon/src/task_store.rs:787-849 | An update is accepted exactly when the caller, the transition and the completion conditions allow it; a refused one changes nothing |
| `TaskEffects.UpdateTakesEffect` | crates/ax-daemon/src/task_store.rs:376-468 | What an accepted update does to the record: status, result, log, claim, retry time, and a new version exactly when something changed |
| `TaskEffects.ControlAcceptedIff` | crates/ax-daemon/src/task_store.rs:856-884 | A control call is accepted exactly for an existing task, an authorised caller, a matching version, and the right kind of status; a refused one changes nothing |
| `TaskEffects.ControlTakesEffect` | crates/ax-daemon/src/task_store.rs:470-588 | What an accepted cancel, remove or retry does to its record, and that no record but its parent changes with it |
| `TaskEffects.RecoverTakesEffect` | crates/ax-daemon/src/task_store.rs:191-250 | A recovery resets exactly the in-progress tasks whose assignee is set and not running; every other record changes at most in its rollup |
| `TaskStoreClass.TaskStore.Create` | crates/ax-daemon/src/task_store.rs:252-322 | The map edited in place, with the insertion undone when the parent is missing or removed, is the creation step |
| `TaskStoreClass.TaskStore.UpdateWithConfirm` | crates/ax-daemon/src/task_store.rs:376-468 | The update in place, writing only when a flag says something changed, is the update step |
| `TaskStoreClass.TaskStore.Cancel` | crates/ax-daemon/src/task_store.rs:470-513 | The cancel in place is the cancel step |
| `TaskStoreClass.TaskStore.Remove` | crates/ax-daemon/src/task_store.rs:515-544 | The remove in place is the remove step |
| `TaskStoreClass.TaskStore.Retry` | crates/ax-daemon/src/task_store.rs:546-588 | The retry in place is the retry step |
| `TaskStoreClass.TaskStore.MarkToolActivity` | crates/ax-daemon/src/task_store.rs:620-639 | The activity mark in place is the touch step |
| `TaskStoreClass.TaskStore.RecordDispatch` | crates/ax-daemon/src/task_store.rs:641-661 | The dispatch record in place is the dispatch step |
| `TaskStoreClass.TaskStore.RecoverStaleInProgress` | crates/ax-daemon/src/task_store.rs:191-250 | The sweep's two loops in place are the recovery step |
| `TaskStoreClass.TaskStore.RefreshParentRollup` | crates/ax-daemon/src/task_store.rs:1007-1049 | The refresh in place is the refresh of the model |
| `TaskStoreClass.SummarizeTaskRollup` | crates/ax-daemon/src/task_store.rs:1051-1108 | The counting loop gives the rollup of the model |
| `TaskStoreClass.UpdateRecord` | crates/ax-daemon/src/task_store.rs:376-448 | The change flag is set exactly when the record differs from before |
| `TaskStoreClass.MarkTaskClaimed` | crates/ax-daemon/src/task_store.rs:953-964 | The claim flag is set exactly when the claim changed the record |
| `TaskIds.ExtractStamped` | crates/ax-daemon/src/task_helpers.rs:22-65 | A body that starts with a task header yields that task's id, whatever follows |
| `QueueLaws.QueueConserves` | crates/ax-daemon/src/queue.rs:125-208 | For every sequence of calls and every inbox, the enqueued messages are those delivered, dropped by the cap, removed or pending, as multisets; and for every sender, delivered followed by pending is an in-order subsequence of enqueued |
| `QueueLaws.DequeueTakesOldest` | crates/ax-daemon/src/queue.rs:156-184 | A dequeue hands out the oldest matching messages up to the limit and keeps all others in order |
| `QueueLaws.DequeueKeepsOrder` | crates/ax-daemon/src/queue.rs:156-184 | For every sender, what is handed out followed by what stays is exactly what was there |
| `QueueLaws.CapDropsOldest` | crates/ax-daemon/src/queue.rs:125-150 | An enqueue keeps the cap, drops only from the front, never the newcomer, and touches no other inbox |
| `QueueLaws.RemovalIsExact` | crates/ax-daemon/src/queue.rs:192-208 | A removal leaves exactly the messages of other tasks, in order |
| `FlushProtocol.CleanMeansSaved` | crates/ax-daemon/src/queue.rs:227-253 | Under every interleaving of calls with the snapshot and write steps of a flush, an idle flusher with a clear flag means that the file equals memory |
| `FlushProtocol.FailureKeepsFlag` | crates/ax-daemon/src/queue.rs:227-253 | From a failed write until the next snapshot, the flag is set or about to be |
| `FlushProtocol.CrashLosesOnlyASuffix` | crates/ax-daemon/src/queue.rs:227-253 | At every moment the file is the memory of one earlier moment, and later files show later moments |
| `MessageQueueClass.TakeFrom` | crates/ax-daemon/src/queue.rs:156-184 | The draining loop splits an inbox into what is handed out and what stays |
| `MessageQueueClass.Retain` | crates/ax-daemon/src/queue.rs:192-208 | The filtering loop keeps the messages of other tasks and counts the rest |
| `MessageQueueClass.MessageQueue.Enqueue` | crates/ax-daemon/src/queue.rs:125-150 | The enqueue in place is the enqueue step and returns the stamped message |
| `MessageQueueClass.MessageQueue.Dequeue` | crates/ax-daemon/src/queue.rs:156-184 | The dequeue in place is the dequeue step |
| `MessageQueueClass.MessageQueue.RemoveTaskMessages` | crates/ax-daemon/src/queue.rs:192-208 | The removal in place is the removal step and returns how many went |
| `MessageQueueClass.FindTask` | crates/ax-daemon/src/queue.rs:211-221 | The search finds a message of the task exactly when there is one |
| `MessageQueueClass.MessageQueue.Flush` | crates/ax-daemon/src/queue.rs:227-253 | A flush without interruption is the flush protocol run alone |
| `WakeScheduling.PassSettles` | crates/ax-daemon/src/wake_scheduler.rs:197-335 | A pass that nothing interrupts leaves entries that were not due alone, and an entry it fired and kept is not due for three seconds |
| `WakeScheduling.SecondPassIsIdle` | crates/ax-daemon/src/wake_scheduler.rs:197-335 | After a pass that nothing interrupts, a second one at the same instant changes nothing, whatever it would find |
| `WakeScheduling.AttemptsStayBelowCap` | crates/ax-daemon/src/wake_scheduler.rs:270-335 | In every reachable schedule, with calls between the steps of a pass, fewer than ten attempts are on record |
| `WakeScheduling.BoundedPatience` | crates/ax-daemon/src/wake_scheduler.rs:163-335 | Under every interleaving of schedule and cancel calls with the steps of passes, at most ten attempts are counted between two schedule calls for a workspace; unless the first call comes while a pass is about to fire the workspace, the k-th is made by a pass no earlier than five seconds plus the first k-1 backoffs, the tenth no earlier than 435 seconds |
| `WakeScheduling.LeadTimesIff` | crates/ax-daemon/src/wake_scheduler.rs:163-176 | The lead times hold for everything that may follow a schedule call exactly when no pass is about to fire the workspace |
| `WakeScheduling.InterruptedPassIsEarly` | crates/ax-daemon/src/wake_scheduler.rs:197-268 | A schedule call that comes between the collection and the firing of an entry can be followed by a counted attempt at once |
| `WakeScheduling.PassIsItsSteps` | crates/ax-daemon/src/wake_scheduler.rs:197-268 | Collecting and then firing the due entries in any order, without interruption, is the pass as one step |
| `WakeScheduling.WakeScheduler.Schedule` | crates/ax-daemon/src/wake_scheduler.rs:163-176 | The schedule call in place is the schedule step |
| `WakeScheduling.WakeScheduler.AdvanceAttempt` | crates/ax-daemon/src/wake_scheduler.rs:270-335 | The retry decision in place: drop, or record the attempt and the next time |
| `WakeScheduling.WakeScheduler.Process` | crates/ax-daemon/src/wake_scheduler.rs:197-268 | Collecting and firing in a loop without interruption is the pass of the model |
| `WakeScheduling.WakeScheduler.FireEntry` | crates/ax-daemon/src/wake_scheduler.rs:209-267 | The step for one collected entry, which does nothing to an entry that has gone in the meantime |
| `WakeScheduling.WakeScheduler.CollectDue` | crates/ax-daemon/src/wake_scheduler.rs:198-207 | Each due entry is collected once |
| `RefillLaws.RefillIsIdempotent` | crates/ax-daemon/src/handlers.rs:756-773 | Whenever nothing is missing or the inbox has room for what is, after a refill every runnable task of the workspace has a queued message, each newly queued task was dispatched once more, and a second refill sends nothing and changes nothing |
| `RefillLaws.RefillSettlesIff` | crates/ax-daemon/src/handlers.rs:756-773 | Into an empty inbox, for every cap: all runnable tasks have a message afterwards, and a second refill sends nothing, exactly when there is no cap or it is not below the number of runnable tasks |
| `RefillLaws.CappedRefillFallsShort` | crates/ax-daemon/src/handlers.rs:756-773 | With more runnable tasks than the cap, whatever the cap, a refill leaves one of them without a message |
| `RefillLaws.NoticeNamesTask` | crates/ax-daemon/src/task_helpers.rs:200-220 | The message a dispatch puts into the queue is recognised as the task's own |
| `ReconcileLaws.NudgesAreBounded` | crates/ax-daemon/src/server.rs:382-427 | Over every run of store, queue, wake, refill and reconcile calls, a task is nudged at most five times and the nudges are pairwise at least 180 seconds apart for each step between them |
| `ReconcileLaws.PassIsGentle` | crates/ax-daemon/src/server.rs:382-427 | In one pass every nudged task was silent for 180 seconds after the recovery and below the cap, and no assignee gets more than one message or one into a non-empty inbox |
| `BrokerLoops.EnqueueTaskMessage` | crates/ax-daemon/src/handlers.rs:741-754 | Enqueue and dispatch record together are the post of the model |
| `BrokerLoops.RefillRunnableTaskMessages` | crates/ax-daemon/src/handlers.rs:756-773 | The refill loop over the two stores is the refill of the model and returns how many messages it sent |
| `BrokerLoops.ReconcileOnce` | crates/ax-daemon/src/server.rs:382-427 | The recovery and the nudging loop over the three stores are the pass of the model |
| `BrokerLoops.NudgeTask` | crates/ax-daemon/src/server.rs:398-421 | The guards and effects for one silent task |
| `ConfigMounts.ValidateTreeExact` | crates/ax-config/src/validate.rs:72-243 | Validation accepts exactly the trees in which every reachable file is readable, no file is its own ancestor, the root's caps hold at every mount, fully qualified prefixes are pairwise distinct, and no merged workspace name is an orchestrator session name; stated over chains of entry names, for any set of files, cyclic ones included |
| `ConfigLaws.LoadsIff` | crates/ax-config/src/tree.rs:109-172 | The tree load succeeds exactly when every chain of live entries leads to readable files and never back to one it went through |
| `ConfigLaws.ValidateIff` | crates/ax-config/src/validate.rs:98-243 | The traversal with its growing claims accepts exactly when the tree loads, keeps the caps and its claims as a whole are free of conflict, and ends with exactly those claims |
| `ConfigLaws.FitsJoin` | crates/ax-config/src/validate.rs:133-222 | Claiming two parts of a tree one after the other is claiming them together, which is why the order of traversal does not matter for acceptance |
| `ConfigMounts.SitesAreMounts` | crates/ax-config/src/tree.rs:109-172 | The projects of a loaded tree are exactly the mounts of the files, with their paths and prefixes |
| `ConfigMounts.SitesApart` | crates/ax-config/src/tree.rs:146-168 | Each mount appears in the tree once |
| `ConfigValidation.RunValidation` | crates/ax-config/src/validate.rs:72-96 | The pass as it runs reports no error exactly for well-formed trees, and otherwise the error of the model |
| `ConfigValidation.ValidationState.ValidateRecursive` | crates/ax-config/src/validate.rs:98-243 | The recursion over the state object is the traversal of the model; on success `seen` is restored |
| `ConfigValidation.ValidationState.ClaimOwn` | crates/ax-config/src/validate.rs:133-159 | The loop over own workspaces is the claim of the model |
| `ConfigFlat.FlatMeans` | crates/ax-config/src/tree.rs:50-107 | The flat load fails exactly when the tree load does, with the same error; otherwise each name holds the first workspace listed under it in pre-order, own before children by name, and providers likewise |
| `ConfigFlat.FlatAgreesWithTree` | crates/ax-config/src/tree.rs:50-172 | The names the flat load builds from the bottom up are, listed in pre-order, the merged names of the tree exactly when no project with workspaces is mounted under an empty prefix inside a non-empty one; then the flat map is the first workspace of each merged name |
| `ConfigFlat.NamedEntriesAgree` | crates/ax-config/src/tree.rs:50-172 | When every child entry in the files has a name or a prefix, the keys of the flat map are exactly the merged names of the tree, each with the first workspace of that name in pre-order |
| `ConfigFlat.MaskedNamesAgree` | crates/ax-config/src/tree.rs:86-102 | A concrete tree whose listings differ while the maps agree, because both names of the workspace are taken |
| `ConfigFlat.NestedEmptyPrefixDisagrees` | crates/ax-config/src/tree.rs:215-221 | A concrete tree outside that condition: an entry with an empty name two levels down is "a..w" in the tree and "a.w" in the flat map |
| `ConfigFlat.QualifyAssociatesIff` | crates/ax-config/src/tree.rs:215-221 | Qualifying by two prefixes in turn is associative exactly when the inner prefix is non-empty or the outer one is empty |
| `ConfigFlat.FirstMapMeaning` | crates/ax-config/src/tree.rs:95-102 | A merged map holds a name exactly when it is listed, with its first listing |
| `ConfigLoader.LoadTreeRecursive` | crates/ax-config/src/tree.rs:109-172 | The recursion with its loops and its `seen` set computes the tree load; on success `seen` is restored |
| `ConfigLoader.LoadRecursive` | crates/ax-config/src/tree.rs:50-107 | The recursion that merges children in place computes the flat load; on success `seen` is restored |
| `ConfigLoader.MergeInto` | crates/ax-config/src/tree.rs:95-102 | The insertion loop keeps existing names and adds the rest behind the prefix |
| `TeamOverlay.OverlayMeansItsChanges` | crates/ax-daemon/src/team_reconfigure.rs:381-541 | Folding any list of changes into the default overlay is refused exactly when the list has no meaning, read name by name; otherwise the overlay is consistent and stands for that meaning |
| `TeamOverlay.EditMeansSlotStep` | crates/ax-daemon/src/team_reconfigure.rs:414-529 | One edit is refused exactly when its meaning is, and otherwise has that meaning for its name and none for any other, keeping added, removed and disabled apart |
| `TeamOverlay.EditTakesEffect` | crates/ax-daemon/src/team_reconfigure.rs:546-598 | On the effective configuration, add puts the entry in, remove takes it out, disable takes it out unless the overlay added it, and enable restores the base's entry exactly if it has one; nothing else changes |
| `TeamOverlay.Draft.ApplyChange` | crates/ax-daemon/src/team_reconfigure.rs:414-529 | The edit in place is the edit of the model; a refused change leaves the draft as it was |
| `TeamOverlay.ApplyAll` | crates/ax-daemon/src/team_reconfigure.rs:381-394 | The loop over the changes is the fold of the model |
| `TeamOverlay.RefusalSticks` | crates/ax-daemon/src/team_reconfigure.rs:381-394 | Once a prefix of the list is refused, so is the list, for the same reason |
| `TeamLeases.RevisionCountsIffSerial` | crates/ax-daemon/src/team_reconfigure.rs:171-306 | With every lock-free stretch split into steps, the stored revision counts the applies that reached the store, at every moment, exactly when no commit for the team falls between a begin's plan and its commit, nor between a finish's read of the state and its write |
| `TeamLeases.OneAtATimeIsSerial` | crates/ax-daemon/src/team_reconfigure.rs:171-260 | Calls whose commit follows right after their plan, and whose write right after their read, meet that condition |
| `TeamLeases.OverlappingBeginsLoseUpdate` | crates/ax-daemon/src/team_reconfigure.rs:171-223 | Two overlapping begins that both expect revision 0 are both granted; the first overlay is lost and the revision is 1 |
| `TeamLeases.BeginInsideFinishLosesUpdate` | crates/ax-daemon/src/team_reconfigure.rs:225-260 | A begin between a finish's read and its write: no commit falls between a plan and its commit, yet the revision goes back from 2 to 1 and the second overlay is lost |
| `TeamLeases.ExpectedRevisionGuards` | crates/ax-daemon/src/team_reconfigure.rs:264-280 | Under that condition, a begin that expects the revision read at an earlier moment reaches the store only if no apply intervened, and replaces the overlay that was read |
| `TeamLeases.GrantsExclude` | crates/ax-daemon/src/team_reconfigure.rs:187-214 | Between two grants for a team, the first lease was redeemed, or a grant up to and including the second came at least 120 seconds after the first |
| `TeamLeases.GrantsKeepTerm` | crates/ax-daemon/src/team_reconfigure.rs:187-214 | With a clock that never goes backwards, a second grant comes after the first lease was redeemed or at least 120 seconds after it was granted |
| `TeamLeases.RedeemedAtMostIssued` | crates/ax-daemon/src/team_reconfigure.rs:225-242 | A token is redeemed, or waiting to be, no more often than it was issued |
| `TeamLeases.TokenComesBackIff` | crates/ax-daemon/src/team_reconfigure.rs:838-844 | With a clock that never goes backwards, a redeemed token becomes good for another redemption exactly when two grants of its team carry the same instant |
| `TeamLeases.TokenRedeemedOnce` | crates/ax-daemon/src/team_reconfigure.rs:225-242 | When grants of a team happen at different instants, each token is redeemed at most once |
| `TeamLeases.SameInstantRepeatsToken` | crates/ax-daemon/src/team_reconfigure.rs:838-844 | At a single instant a token can be issued and redeemed twice |
| `TeamLeases.TeamController.PlanInner` | crates/ax-daemon/src/team_reconfigure.rs:264-306 | The planning half of a begin is the plan step |
| `TeamLeases.TeamController.CommitApply` | crates/ax-daemon/src/team_reconfigure.rs:187-222 | The committing half of a begin, in place, is the commit step |
| `TeamLeases.TeamController.FinishApply` | crates/ax-daemon/src/team_reconfigure.rs:225-260 | A finish that nothing interrupts redeems the lease, keeps every revision and overlay, and adds the report |
| `TeamLeases.TeamController.RedeemLease` | crates/ax-daemon/src/team_reconfigure.rs:232-243 | The part of a finish under the lease lock, in place, is the redeeming step |
| `TeamLeases.TeamController.FetchState` | crates/ax-daemon/src/team_reconfigure.rs:245-257 | The read of a finish is the fetching step |
| `TeamLeases.TeamController.RecordReport` | crates/ax-daemon/src/team_reconfigure.rs:258-259 | The write of a finish, in place, is the recording step |
| `MemoryModel.SupersessionIsAForest` | crates/ax-daemon/src/memory.rs:110-196 | In every reachable state the two directions of supersession agree, every chain ends in exactly one active memory, and a retired memory never changes again |
| `MemoryModel.ChainHasOneActiveEnd` | crates/ax-daemon/src/memory.rs:110-196 | Following successors from any memory reaches an active one after finitely many steps and nothing after it |
| `MemoryModel.RememberStoredIff` | crates/ax-daemon/src/memory.rs:110-196 | A request is stored exactly when it is complete, every target is active and the write succeeds; otherwise the map is exactly as before |
| `MemoryModel.RememberRetiresTargets` | crates/ax-daemon/src/memory.rs:136-196 | A stored request adds one active memory, retires exactly the trimmed non-blank targets, and changes nothing else |
| `MemoryStoreClass.MemoryStore.Remember` | crates/ax-daemon/src/memory.rs:110-196 | Validation, edits in place and the rollback of a failed write are the model's all-or-nothing step |
| `MemoryStoreClass.MemoryStore.RollBack` | crates/ax-daemon/src/memory.rs:184-194 | Undoing the edits from the snapshots restores the map exactly |
| `MemoryStoreClass.MemoryStore.List` | crates/ax-daemon/src/memory.rs:198-249 | A listing holds matching memories only, newest first and without ties out of order, and no left-out match comes before a listed one |
| `TomlUpsert.TopGetPut` | crates/ax-agent/src/codex.rs:517-535 | For keys without spaces, equals signs and a leading blank, a put is read back exactly when the written line does not read as a section header |
| `TomlUpsert.BracketedEntryIsLost` | crates/ax-agent/src/codex.rs:517-535 | A key that opens a bracket with a value that closes it is lost |
| `TomlUpsert.TopPutPut` | crates/ax-agent/src/codex.rs:517-535 | The last put wins, and putting twice is putting once, exactly under the same condition |
| `TomlUpsert.TopOtherKeys` | crates/ax-agent/src/codex.rs:517-535 | No other top-level key is affected, exactly unless the written line reads as a header and replaces a line above the other key's first assignment |
| `TomlUpsert.TopKeepsSections` | crates/ax-agent/src/codex.rs:517-535 | No key of a section is affected unless the written line is that section's header |
| `TomlUpsert.BracketedEntryHidesSection` | crates/ax-agent/src/codex.rs:517-535 | A written line that is a section's header hides the section below it |
| `TomlUpsert.TopEditsOneLine` | crates/ax-agent/src/codex.rs:517-535 | One line is replaced or added; all others stay, in order |
| `TomlUpsert.SectionKeyGetPut` | crates/ax-agent/src/codex.rs:476-515 | A put into a section, present or not, is read back exactly when the written line does not read as a header |
| `TomlUpsert.SectionKeyPutPut` | crates/ax-agent/src/codex.rs:476-515 | The last put into a section wins, exactly under the same condition |
| `TomlUpsert.SectionKeepsTop` | crates/ax-agent/src/codex.rs:476-515 | A section put changes no top-level key |
| `TomlUpsert.SectionKeepsOthers` | crates/ax-agent/src/codex.rs:476-515 | A section put changes no key of another section unless the written line is that section's header, and no other key of its own, exactly unless the line reads as a header and replaces a line above the other key's first assignment |
| `TomlUpsert.SectionEditsOneLine` | crates/ax-agent/src/codex.rs:476-515 | In an existing section one line is replaced or added; all others stay, in order |
| `TomlUpsert.UpsertTopLevelKey` | crates/ax-agent/src/codex.rs:517-535 | The loop over the lines is the put of the model |
| `TomlUpsert.UpsertKeyInSection` | crates/ax-agent/src/codex.rs:476-515 | Finding the section's bounds and editing between them is the section put of the model |
| `ShellQuote.QuotingRoundTrips` | crates/ax-agent/src/shell.rs:8-23 | For every list of strings, reading the space-joined quotations by sections 2.2.1 and 2.2.2 of the POSIX.1-2017 Shell Command Language gives back exactly the list, empty strings included |
| `ShellQuote.QuotingIsInjective` | crates/ax-agent/src/shell.rs:8-23 | Two lists of arguments never share a command line |
| `ShellQuote.Quote` | crates/ax-agent/src/shell.rs:8-23 | The loop over the characters is the quotation of the model |

## Left out

- Loading state from disk after a restart, and its encoding: runs start from an empty store, so a version or revision that was never written can be used again after a crash.
- The wording of log entries, rollup summaries and error messages, except where two summaries are compared; the texts are short stand-ins.
- The last-child-update time, the reconciliation hint and the summary inside a rollup: the code compares them but does not keep them current for every child change, so only the counters are promised.
- The regular expressions for evidence and no-op messages: they are arbitrary predicates on text.
- Sockets, sessions, tmux, git and agent processes, the registry, the history ring and shared values: input and output or plain maps.
- The follow-up actions of the request handlers, and the listings and counters of tasks.
- Normal forms of a memory's scope, kind and tags: requests arrive in normal form.
- Splitting text into lines and joining it again, carriage returns included: the TOML edits work on lines.
- Path resolution: a child entry carries the configuration path its directory resolves to, and files are a finite map from resolved paths. Two spellings of one path count as two files, as in the code. A file that vanishes between the existence test and the read is not modelled.
- The truncation to 32 bits of a child count above four billion.
- Content of a workspace beyond directory, runtime, description and instructions, and the defaults filled into it.
- The desired-state summary and the list of actions of a team plan, and the effective configuration file: a plan either yields the next overlay or fails.
- The hash inside a lease token: a token is the pair of team and instant, so two teams never share one.
- Interleaving within a refill or a reconciler pass, and between its calls to the task store, the queue and the scheduler: each is one step, which the code does not guarantee, since it takes each store's lock for one call at a time.
- Interleaving within calls of the task store, the queue and the memory store other than a flush: each holds its store's lock throughout and is one step. The scheduler and the team controller do not, and are split where they let go of their lock.
- TokenRedeemedOnce: states the promise for grants at different instants; TokenComesBackIff says when a token comes back.
- TopKeepsSections: one way only; when the written line is the section's header, a lookup may still agree by chance.
- SectionKeepsOthers: the same for a section other than the one written to.
- RefillIsIdempotent: a sufficient condition for an inbox that is not empty; RefillSettlesIff is exact for an empty one.
