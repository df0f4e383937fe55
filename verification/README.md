# Verified models of QEMU's block layer, jobs, image tools and exclusive sections

This project models, in Dafny, the parts of QEMU whose correctness depends on many functions working
together, and proves what they promise for all inputs, all runs and all reachable states.

- **Exclusive sections** (`Exclusive`): the protocol of `qemu/cpu-common.c` by which a thread gets every
  virtual CPU out of guest code. A transition system in which every atomic access, lock, unlock, wait
  and wake is one step of one of any number of threads, under sequential consistency.
- **The block graph** (`Digraph`, `BlockGraph`, `Topological`, `Transactions`, `Permissions`,
  `References`, `GraphEdits`, `BlockLayer`, `AioContexts`): nodes, links, slots, permissions, references
  and AioContexts of `qemu/block.c`. `BlockLayer.BlockLayer` is the mutable graph with its open
  transaction; each operation commits or rolls back. `Idle()` is the invariant between operations:
  the graph is closed, acyclic and in agreement with its slots, no two parents of a node conflict, and
  every reference is accounted for.
- **Background jobs** (`JobModel`, `JobRuns`, `JobInvariant`, `JobSteps`, `JobTheorems`, `JobPauses`,
  `JobSleeps`, `JobResults`, `JobGroup`, and runs in `JobPaths`, `JobMixedGroup` and `JobPauseRuns`):
  `qemu/job.c` with the users of its pause count in `qemu/blockjob.c`. `JobModel` says what each stretch of code under job_mutex does to
  a job; `JobRuns` interleaves coroutines, timers, drains, error stops, enters, commands and the main
  loop's completion procedures where job_mutex is released; `JobGroup` is the group as mutable state,
  whose every step is a step of `JobRuns`.
- **Image tools** (`ImageData`, `Compare`, `Rebase`, `ConvertScan`, `ConvertParts`, `ConvertRuns`,
  `ConvertInvariant`, `ConvertTheorems`): compare, safe rebase and convert of `qemu/qemu-img.c`.

Everything the code cannot see is arbitrary within a contract. Drivers' permission functions and their
answers to permission checks are parameters, and so is whether the AioContexts of a new link's ends can be
brought together. Block-status queries answer anything that is sound, cut in any way. Reads and writes may
fail at any point. Lists whose order does not matter are sets that a loop takes elements from in any order.

Every graph operation states exactly when it succeeds: if the links it asks for may be made or moved, and if
there are permissions under which no node of the part it refreshes has conflicting parents or refuses
(`Refreshable`). Then the graph carries those permissions, of which there is one choice
(`Permissions.RefreshUnique`), and otherwise it is as before.

Three contracts are assumed of job drivers: callbacks do not call back into the job functions, and
`.cancel` and `.user_resume` do not run the event loop; `.cancel` answers yes to a forced request and
whenever the job is not READY; READY is announced at most once. The members of a group are fixed from
the start. Drivers that support filtered or backing children say what permissions those get.

Where code and comment differ, the code is followed. The comment on is_allocated_sectors says that data
is reported exactly if the first sector is not zero; `ConvertScan.ZerosReportedAsData` gives an input
for which it is not so, and `ConvertScan.IsAllocatedSectors` states the exact condition.

A group of jobs is all-or-nothing only without a failed prepare: the job that finalizes the group is
exempt from the forced cancel of the others. `JobMixedGroup.GroupCanBeDivided` is a run in which the
group ends divided, and `JobTheorems.PrepareFailure` says exactly who is committed.

pause_count is conserved only as long as no error stop is overtaken: if the job sleeps, the pause in
block_job_error_action wakes it, which gives up the lock before user_paused is set.
`JobPauseRuns.StopCanBeOvertaken` is a run after which a pause stays in force that nobody can take back;
`JobPauses.CountTooHigh` and `JobPauses.PauseCountExact` say exactly when and by how much the count is too
high. A pause does not hold against job_enter, a cancel or a synchronous wait: `JobPauses.PauseEndsBy` and
`JobPauses.WokenWhilePaused` give the exact steps.

The buffers of a safe rebase can be too small for a range that has been extended to whole units.
`Rebase.RegionFits` is the exact condition for one range and `Rebase.BuffersExact` the exact condition, for
any unit size, under which no loop over an image can meet such a range. `Rebase.RegionCanOverrun` and
`Rebase.LargeUnitOverruns` are inputs that miss it. The model reads and writes such a range as if the
buffers were long enough.

`dafny verify dfyconfig.toml` checks the whole project.

## Model

| member | source | states |
|---|---|---|
| `Exclusive.StepKeepsInv` | qemu/cpu-common.c:182-321 | every atomic access, lock, unlock, wait and wake of any thread keeps the invariant that ties `pending_cpus`, `running`, `has_waiter`, the lock and the program counters together |
| `Exclusive.RunKeepsInv` | qemu/cpu-common.c:182-321 | the invariant holds in every state of every interleaving of any finite set of CPUs |
| `Exclusive.MutualExclusion` | qemu/cpu-common.c:191-246 | while more calls of start_exclusive have returned to a thread than it has called end_exclusive, this is so of no other thread, and of no CPU have more calls of cpu_exec_start returned than it has called cpu_exec_end |
| `Exclusive.SectionsNest` | qemu/cpu-common.c:191-246 | in every run exclusive_context_count is the number of returned start_exclusive calls of the thread less its end_exclusive calls; it stands inside the section exactly while that is positive, that is to the outermost end_exclusive, and executes exactly between the return of cpu_exec_start and cpu_exec_end |
| `Exclusive.StartNotRunning` | qemu/cpu-common.c:196-197 | start_exclusive is never called, nested or not, by a CPU marked running, as it asserts |
| `Exclusive.CallsAccepted` | qemu/cpu-common.c:191-246 | no call is ever refused, and a nested start_exclusive returns at once without the lock |
| `Exclusive.LocksIfPending` | qemu/cpu-common.c:249-321 | cpu_exec_start and cpu_exec_end go for the list lock exactly if they have seen a pending request |
| `Exclusive.RunningUnderExclusion` | qemu/cpu-common.c:249-286 | a CPU whose `running` is set while another thread is exclusive is on its way to wait, not executing, and is not counted as a waiter |
| `Exclusive.PendingCountsWaiters` | qemu/cpu-common.c:204-229 | with the list lock free, `pending_cpus` is 0 and nobody has `has_waiter`, or it is 1 plus the number of CPUs that have it |
| `Exclusive.OneSleeper` | qemu/cpu-common.c:222-229 | at most one thread sleeps on exclusive_cond, and with the lock free only while `pending_cpus` exceeds 1, so one signal suffices |
| `Exclusive.NoDeadlock` | qemu/cpu-common.c:235-321 | when no thread can step, the lock is free and every sleeper waits for a CPU that still executes or for a running exclusive section |
| `Exclusive.SleepersHaveCause` | qemu/cpu-common.c:182-246 | a sleeper on either condition has a cause that is still going to signal it |
| `Digraph.AddArc` | qemu/block.c:3197-3201 | a new link p -> c in an acyclic graph closes no cycle exactly if c does not already reach p |
| `Digraph.ReachWithArc` | qemu/block.c:4323-4339 | what a new link makes reachable: old paths, or an old path into it followed by an old path out of it |
| `BlockGraph.RecurseHasChild` | qemu/block.c:4323-4339 | answers true exactly if `child` is reachable from `bs`; terminates by the shrinking set of nodes below |
| `BlockGraph.ScanChildren` | qemu/block.c:5273-5290 | one round of the breadth-first search: the queue and the found set stay closed under what has been explored, and a hit means the link is in the subtree of `to` |
| `BlockGraph.ShouldUpdateChild` | qemu/block.c:5219-5296 | true exactly if the parent may be moved and the link is not in the subtree of `to` |
| `BlockGraph.MoveIsAcyclic` | qemu/block.c:5219-5296 | moving a link to `to` leaves the graph acyclic exactly if the link is not in the subtree of `to` |
| `BlockGraph.MoveKeepsSubtree` | qemu/block.c:5338-5369 | moving a link that is not below `to` changes nothing below `to`, so later answers of the same replacement stay right |
| `Topological.Dfs` | qemu/block.c:2287-2321 | from a sorted closed list the result is the old nodes plus all reachable from the root, each once, parents before children |
| `Topological.RefreshList` | qemu/block.c:2618-2630 | composed over any list of roots with repeats: exactly the nodes reachable from a root, topologically sorted |
| `Topological.ParentsFirst` | qemu/block.c:2287-2298 | in a sorted list every parent of a listed child comes before it |
| `Topological.SortedIsClosed` | qemu/block.c:2287-2298 | a sorted list contains everything reachable from its members |
| `Transactions.Record` | qemu/util/transactions.c:47-79 | a record whose undo leads back extends the undo log: aborting the longer log from the new graph gives what aborting the shorter one gave before |
| `Transactions.ReplaceUndone` | qemu/block.c:2422-2498 | bdrv_replace_child_tran: slots and links agree afterwards, the assertions of its abort hold, and the abort restores the graph exactly |
| `Transactions.AttachUndone` | qemu/block.c:3019-3172 | a new link fits into the slots, and bdrv_attach_child_common_abort removes it without a trace |
| `Transactions.AttachFits` | qemu/block.c:1439-1479 | bdrv_child_cb_attach fills exactly the slot the role asks for and leaves the other slots alone |
| `Transactions.FillsSlot` | qemu/block.c:1439-1479 | a new child fills `backing` exactly if it is a COW child or the primary child of a filter that keeps it there, and `file` exactly if it is any other primary child |
| `Transactions.PermUndone` | qemu/block.c:2323-2360 | bdrv_child_set_perm_abort restores perm and shared_perm |
| `Transactions.InheritsUndone` | qemu/block.c:3324-3358 | bdrv_set_inherits_from_abort restores inherits_from |
| `Permissions.GetCumulativePerm` | qemu/block.c:2632-2648 | the union of the parents' perm and the intersection of their shared_perm, for any order of the parent list |
| `Permissions.ParentPermsConflict` | qemu/block.c:2243-2267 | true exactly if some parent uses a permission another parent does not share, in either direction |
| `Permissions.StepSettles` | qemu/block.c:2587-2608 | settling one more node of the sorted list leaves all earlier nodes settled |
| `Permissions.Undisturbed` | qemu/block.c:2507-2577 | changing the links below a node disturbs no node that does not lie below it |
| `Permissions.FixpointUnique` | qemu/block.c:2507-2648 | there is only one assignment of permissions in which every listed node has passed its cumulative permissions on: one pass over the topological list computes the fixpoint |
| `Permissions.FixpointAt` | qemu/block.c:2507-2608 | the same for the links of one listed node, by induction along the list |
| `Permissions.PassAgrees` | qemu/block.c:2587-2608 | as far as the pass has come, the masks above each node are those of every assignment under which all listed nodes are settled |
| `Permissions.StopIsFinal` | qemu/block.c:2594-2605 | where the pass meets a conflict or a refusal, no assignment of permissions to the links it governs would settle all listed nodes |
| `Permissions.RefreshUnique` | qemu/block.c:2586-2630 | there is only one outcome of a successful refresh from given roots |
| `Permissions.NotSharedNotUsed` | qemu/block.c:2269-2285 | in a settled graph another parent of a node's child uses only what the node's driver shares on its link, unless the child has force_share, and the link uses only what the other parent shares |
| `References.ReplaceBalanced` | qemu/block.c:2478-2498 | after bdrv_replace_child_tran every refcnt still equals links + saved old nodes + owned + scheduled references |
| `References.ReplaceAborted` | qemu/block.c:2430-2456 | ... and after its abort |
| `References.AttachBalanced` | qemu/block.c:3142-3172 | ... after attaching a new link |
| `References.DetachBalanced` | qemu/block.c:3019-3053 | ... after a link gives up its node to a scheduled unref |
| `References.ZeroIsUnused` | qemu/block.c:7162-7204 | a refcnt of zero means no link, no saved record, no owner and no scheduled unref is left |
| `GraphEdits.ReplaceWf` | qemu/block.c:2932-2993 | pointing a link elsewhere keeps the graph closed, acyclic and in agreement with its slots if the new link closes no cycle |
| `GraphEdits.AttachWf` | qemu/block.c:3073-3172 | attaching a link from a parent the child does not reach keeps the graph well-formed |
| `GraphEdits.ReplaceContinues` | qemu/block.c:2422-2498 | the step stays inside its transaction: well-formed, undoable to the same graph, counts balanced |
| `GraphEdits.AttachContinues` | qemu/block.c:3073-3172 | likewise for a new link |
| `GraphEdits.UndoGood` | qemu/util/transactions.c:60-79 | undoing the newest record keeps the rest undoable and the counts balanced, and never drops the last reference of the node it unlinks |
| `GraphEdits.CommitStep` | qemu/util/transactions.c:81-100 | the commit of one record frees only empty links and turns saved old nodes into scheduled unrefs, counts balanced |
| `GraphEdits.StaysPeaceful` | qemu/block.c:2507-2648 | if outside the refreshed part no node gained a parent or saw one change, a successful refresh leaves no conflicting parents anywhere |
| `GraphEdits.MoveOne` | qemu/block.c:5338-5369 | moving one more parent keeps the graph acyclic and the subtree of `to` as it was at the start |
| `GraphEdits.WhoFollows` | qemu/block.c:5221-5296 | of a node's parents, backends always follow to the new node, jobs never, and a node exactly if the new node does not reach it |
| `GraphEdits.WalkUnfold` | qemu/block.c:3386-3388 | the links visited from a link are that link and those visited from the children of its node |
| `GraphEdits.UnsetTwice` | qemu/block.c:3366-3389 | two visits clear what one visit of all their links clears, in any order |
| `GraphEdits.InheritsPassedOn` | qemu/block.c:3520-3536 | after a child has been put in, it inherits from the parent exactly if the chain from it reached the parent before |
| `GraphEdits.InheritStep` | qemu/block.c:3418-3426 | inherits_from reaches the parent exactly if its next link does |
| `BlockLayer.BlockLayer.constructor` | qemu/block.c:411-440 | an empty graph to which nobody owns or has scheduled a reference is a state all operations may start from |
| `BlockLayer.BlockLayer.NewNode` | qemu/block.c:411-440 | a new node has one reference, owned by the caller, and inherits from the node it is opened for, if any; inheritance stays acyclic |
| `BlockLayer.BlockLayer.ReplaceChildTran` | qemu/block.c:2478-2498 | the link points to the new node, which a caller or another link holds, the slots follow, one record is added, and the graph to roll back to is unchanged |
| `BlockLayer.BlockLayer.RemoveChildTran` | qemu/block.c:5298-5328 | the link is emptied and marked for freeing on commit; rollback target unchanged |
| `BlockLayer.BlockLayer.SetPermTran` | qemu/block.c:2344-2360 | the two permission masks are set; rollback target unchanged |
| `BlockLayer.BlockLayer.MarkDriverPerm` | qemu/block.c:2395-2415 | a driver's permission check records itself; rollback target unchanged |
| `BlockLayer.BlockLayer.NodeRefreshPerm` | qemu/block.c:2507-2577 | fails exactly on writers of a read-only or unaligned node and on masks the driver refuses; on success the node is settled: no conflicting parents, both masks of every child link as the driver answers for the node's cumulative permissions, everything shared with a force_share child, and a record for the driver |
| `BlockLayer.BlockLayer.SetChildrenPerm` | qemu/block.c:2566-2577 | every child link gets the driver's two masks, or everything shared if the child has force_share, and nothing else changes |
| `BlockLayer.BlockLayer.DoRefreshPerms` | qemu/block.c:2586-2608 | one pass over a topologically sorted list succeeds exactly if some assignment of permissions to the governed links settles every node in it, and then finds it; no other link changes |
| `BlockLayer.BlockLayer.ListRefreshPerms` | qemu/block.c:2618-2630 | succeeds exactly if there are permissions under which every node reachable from a root is settled, and then sets them; only links that these nodes govern change |
| `BlockLayer.BlockLayer.UndoLast` | qemu/util/transactions.c:60-69 | the newest record is undone and the graph to roll back to stays the same |
| `BlockLayer.BlockLayer.TranAbort` | qemu/util/transactions.c:60-79 | the graph is exactly the one before the transaction |
| `BlockLayer.BlockLayer.CommitLast` | qemu/util/transactions.c:81-90 | a removed link is freed, a replaced node's reference becomes a scheduled unref |
| `BlockLayer.BlockLayer.TranCommit` | qemu/util/transactions.c:81-100 | the graph stays, without the links that were removed |
| `BlockLayer.BlockLayer.TranFinalize` | qemu/util/transactions.c:60-100 | commit or rollback by the result |
| `BlockLayer.BlockLayer.Finish` | qemu/util/transactions.c:60-100 | the same for a transaction that frees no link |
| `BlockLayer.BlockLayer.AttachChildCommon` | qemu/block.c:3073-3172 | refuses exactly if the AioContexts cannot be brought together or more than a reader is asked of an inactive child; otherwise a new link with the given masks |
| `BlockLayer.BlockLayer.AttachChildNoperm` | qemu/block.c:3183-3215 | refuses exactly if the child reaches the parent, the AioContexts cannot be brought together, or the child is inactive and the parent is not or asks for more than reading; otherwise the new link carries what the driver makes of the parent's cumulative permissions |
| `BlockLayer.BlockLayer.GiveUp` | qemu/block.c:7198-7204 | a caller's reference becomes a scheduled unref |
| `BlockLayer.BlockLayer.AttachAndRefresh` | qemu/block.c:3276-3286 | exactly when it succeeds; then the link is there, everything below the parent is settled and nobody conflicts |
| `BlockLayer.BlockLayer.AttachChild` | qemu/block.c:3263-3294 | succeeds exactly if the link may be made and there are permissions under which nobody below the parent objects; then it has exactly the link and those permissions; failure restores the whole graph; the caller's reference is consumed either way |
| `BlockLayer.BlockLayer.RootAttachChild` | qemu/block.c:3224-3253 | the same for a parent outside the graph, with exactly the masks it asks for |
| `BlockLayer.BlockLayer.ReplaceNodeNoperm` | qemu/block.c:5338-5369 | succeeds exactly if every parent link may be moved and is not frozen, or may not be moved and is skipped; then exactly the movable ones point to `to`, which a caller or a link holds |
| `BlockLayer.BlockLayer.MoveParent` | qemu/block.c:5350-5366 | one parent: moved if should_update_child allows it, judged as if nothing had been moved before |
| `BlockLayer.BlockLayer.ReplaceNode` | qemu/block.c:5385-5445 | succeeds exactly if every parent is accepted and there are permissions that settle everything below both nodes; then exactly the movable parents have moved and those permissions are set; failure restores the graph |
| `GraphEdits.CowParent` | qemu/block.c:5399-5408 | the search down the chain ends at the link by which the chain of `from` reaches `to` |
| `GraphEdits.FirstOfChain` | qemu/block.c:5447-5460 | a node's chain reaches the child it stands on by that one link only |
| `GraphEdits.StandsOn` | qemu/block.c:8258-8323 | bdrv_filter_or_cow_child is the one FILTERED child of a filter and the one COW child of any other node, as the assertions on the way say |
| `GraphEdits.NewNodeStands` | qemu/block.c:5479-5500 | a node that bdrv_append puts on top stands on the one below by the new link |
| `BlockLayer.BlockLayer.ReplaceAndDetach` | qemu/block.c:5416-5433 | exactly when it succeeds; then parents moved, the chain's link emptied and marked for freeing, all settled and no conflict; rollback target unchanged |
| `BlockLayer.BlockLayer.ReplaceNodeDetaching` | qemu/block.c:5385-5439 | with detach_subchain: exactly when it succeeds; failure restores the graph; success also frees exactly the link by which the chain reached `to` |
| `BlockLayer.BlockLayer.DropFilter` | qemu/block.c:5447-5466 | the node's movable parents go over to the child it stands on and its own link to that child is gone, or nothing has changed; exactly when it succeeds |
| `BlockLayer.BlockLayer.AppendInTran` | qemu/block.c:5497-5510 | exactly when it succeeds; then the new link below the new node, parents moved, all settled, no conflict |
| `BlockLayer.BlockLayer.Append` | qemu/block.c:5479-5521 | succeeds exactly if the link may be made, every parent is accepted and there are permissions that settle everything below the new node; then the node is on top with those permissions; failure at any step restores the graph |
| `BlockLayer.BlockLayer.SetPermAndRefresh` | qemu/block.c:2715-2717 | succeeds exactly if there are permissions below that go with the new masks, and then sets both |
| `BlockLayer.BlockLayer.ChildTrySetPerm` | qemu/block.c:2706-2738 | the masks are taken exactly if there are permissions below that go with them; failure leaves every mask as it was and is reported as success exactly if the request asked for no more than before |
| `BlockLayer.BlockLayer.SetInheritsTran` | qemu/block.c:3342-3358 | inherits_from is set and the chain of inheritance stays acyclic |
| `BlockLayer.BlockLayer.ClearInherits` | qemu/block.c:3371-3384 | the node behind the link loses inherits_from exactly if it names the root and no other link of the root leads to the node |
| `BlockLayer.BlockLayer.UnsetInheritsFrom` | qemu/block.c:3366-3389 | of all nodes exactly those lose inherits_from that name the root and that some link visited, the given one or one below it, is the last to join to the root; nothing else changes; terminates |
| `BlockLayer.BlockLayer.InheritsFromRecursive` | qemu/block.c:3418-3426 | true exactly if the chain of inherits_from leads from the child to the parent |
| `BlockLayer.BlockLayer.RoleForSlot` | qemu/block.c:3470-3510 | the change is accepted exactly if the node has a driver, the present child is not frozen, and the slot is one a new child may take; the role is that of a filter's only child, of a backing file, or of the child that is replaced |
| `BlockLayer.BlockLayer.VacateSlot` | qemu/block.c:3511-3515 | the old child's link is emptied and recorded for removal, the slot is free, and inherits_from is cleared below it by the exact rule |
| `BlockLayer.BlockLayer.FillSlot` | qemu/block.c:3517-3536 | exactly when it succeeds; then the new child is in the slot with its role, and inherits_from of the new child names the parent if the chain led there before; every other inherits_from is as after the removal |
| `BlockLayer.BlockLayer.SetFileOrBackingNoperm` | qemu/block.c:3457-3542 | succeeds exactly if the slot may change and the new child can be linked once the old one is gone; then the old child of the slot is gone and the new one there in its role; inherits_from is cleared below the old one and afterwards names the parent exactly if the chain of the new child reached it before; nothing else changed; undoable |
| `BlockLayer.BlockLayer.SwapBacking` | qemu/block.c:3564-3569 | the same followed by a permission refresh without conflicts; exactly when both succeed |
| `BlockLayer.BlockLayer.SetBackingHd` | qemu/block.c:3551-3595 | exactly when it succeeds; failure restores links, masks, slots and inherits_from; success swaps the backing child and settles everything below |
| `BlockLayer.BlockLayer.RootUnrefChild` | qemu/block.c:3297-3322 | exactly this link goes, permissions below it are refreshed if that is possible and left alone otherwise, and no parents conflict afterwards |
| `BlockLayer.BlockLayer.UnrefChild` | qemu/block.c:3392-3401 | exactly this link goes, inherits_from below it is cleared by the exact rule, and permissions are refreshed if possible |
| `BlockLayer.BlockLayer.Close` | qemu/block.c:5139-5202 | a node without parents loses all its children and both slots, and no other link goes or moves |
| `BlockLayer.BlockLayer.UnrefBh` | qemu/block.c:7171-7188 | the node is deleted exactly if no link, no owner and no other scheduled unref is left; then exactly the links to its children go |
| `AioContexts.ContextChange.ChangeNode` | qemu/block.c:7646-7687 | records the node and everything connected, or finds a refusing holder among them; terminates by the number of unvisited links |
| `AioContexts.ContextChange.ChangeParents` | qemu/block.c:7660-7665 | all parents of the node are visited |
| `AioContexts.ContextChange.ChangeLinks` | qemu/block.c:7667-7672 | all links of a node or job are visited |
| `AioContexts.ContextChange.ParentChange` | qemu/block.c:7571-7597 | one parent link: visited at most once, refusals of backends reported |
| `AioContexts.ContextChange.ChildChange` | qemu/block.c:7599-7609 | one child or sibling link: visited at most once |
| `AioContexts.ContextChange.ChangeJob` | qemu/blockjob.c:147-171 | a job is recorded once all links to its nodes have been visited |
| `AioContexts.ContextChange.Commit` | qemu/block.c:7622-7630 | exactly the recorded holders get the new context |
| `AioContexts.ContextChange.Clean` | qemu/block.c:7611-7620 | every drain begun for a record is ended |
| `AioContexts.ContextChange.TryChange` | qemu/block.c:7696-7733 | succeeds exactly if the node is there already or no connected holder refuses; success moves exactly the connected holders, refusal moves nothing, every drain begun is ended, and the ends of every link still agree |
| `AioContexts.ContextChange.TryChangeHolder` | qemu/block.c:3118-3133 | a node, job or backend and everything connected moves exactly if no connected backend refuses; otherwise nothing does |
| `AioContexts.ContextChange.MoveForAttach` | qemu/block.c:3112-3140 | the two ends of a new link come to share a context exactly if they do already or one of the two sides can be moved; exactly that side moves |
| `AioContexts.ContextChange.MoveBack` | qemu/block.c:3029-3049 | undoing it is never refused, so neither error_abort nor the assertion fires, and every holder is back in its old context |
| `AioContexts.AttachedUniform` | qemu/block.c:3112-3161 | with the new link in place the ends of every link share a context |
| `AioContexts.WalkComplete` | qemu/block.c:7646-7687 | a finished walk has recorded exactly the holders connected to its start |
| `AioContexts.UniformConnected` | qemu/block.c:7655-7657 | if the ends of every link share a context then so does everything connected, so stopping at a node that is in the context already is right |
| `AioContexts.UniformMoved` | qemu/block.c:7622-7630 | moving a whole component keeps the ends of every link in one context |
| `AioContexts.DrainsEnded` | qemu/block.c:7611-7620 | the quiesce counters are back where they were |
| `JobModel.DoKeepsInv` | qemu/job.c:538-720 | start, pause points, yields, wakes, timers, drains, user pause, both halves of an error stop, enters with and without a condition, ready and return keep what ties status, coroutine, busy, paused, timer, wakes and pause_count together, and fire no assertion |
| `JobModel.EnterKeepsInv` | qemu/job.c:538-561 | a wake is issued only to a parked, undeferred coroutine that has none pending |
| `JobModel.PauseOrGoOnKeepsInv` | qemu/job.c:626-642 | parking changes RUNNING to PAUSED and READY to STANDBY and remembers which |
| `JobModel.ContinueKeepsInv` | qemu/job.c:604-635 | a woken coroutine finds busy set and its status restored by an allowed transition |
| `JobModel.YieldKeepsInv` | qemu/job.c:650-682 | a yield finds busy set; it parks only without a pending pause or forced cancel |
| `JobModel.DrainEndKeepsInv` | qemu/blockjob.c:123-127 | ending a drain finds pause_count positive |
| `JobModel.ErrorStopKeepsInv` | qemu/blockjob.c:608-619 | an error stop, wherever the job's coroutine is, counts itself and leaves the job's invariant intact up to the release of job_mutex or to its end |
| `JobModel.ErrorStopRestKeepsInv` | qemu/blockjob.c:611-618 | ... and its second half sets user_paused, accounting for a stop that finds it set already |
| `JobModel.EndUserPauseKeepsInv` | qemu/job.c:900-910 | ending the user's pause in a cancel finds pause_count positive |
| `JobModel.MarkKeepsInv` | qemu/job.c:912-923 | a cancelled job without an outcome is force-cancelled afterwards exactly if it was before or the driver insisted |
| `JobModel.ExitKeepsInv` | qemu/job.c:1064-1096 | a job that has returned becomes ABORTING if it failed or was force-cancelled, else WAITING |
| `JobModel.UnstartedKeepsInv` | qemu/job.c:1137-1147 | a job cancelled before it started becomes ABORTING |
| `JobModel.OutcomeKeepsInv` | qemu/job.c:846-868 | a completed job is aborted if it failed or was force-cancelled, else committed |
| `JobModel.PrepareKeepsInv` | qemu/job.c:972-987 | a failed prepare makes the job ABORTING, a good one leaves it PENDING |
| `JobModel.ConcludeKeepsInv` | qemu/job.c:795-801 | CONCLUDED, or NULL at once for auto-dismissed and unstarted jobs, by allowed transitions |
| `JobModel.FailEarlyKeepsInv` | qemu/job.c:787-792 | an early failure takes CREATED to NULL |
| `JobInvariant.StepKeepsInv` | qemu/job.c:540-1270 | every step of every coroutine, command, drain, timer and completion procedure keeps the invariant of the group |
| `JobInvariant.RunKeepsInv` | qemu/job.c:540-1270 | it holds in every state of every run of any number of jobs in one group |
| `JobInvariant.AbortStartKeepsInv` | qemu/job.c:929-957 | an abort begins with every other member to be force-cancelled |
| `JobInvariant.AbortLoopWaits` | qemu/job.c:958-963 | an unfinished member of an aborted group has been cancelled, and is waited for under a reference |
| `JobInvariant.SuccessKeepsInv` | qemu/job.c:1037-1061 | completed members of a group that is not aborted have result 0; with all of them done the group becomes PENDING together |
| `JobInvariant.ExitNested` | qemu/job.c:1081-1096 | a job_exit that runs while its group is being aborted only marks its own job |
| `JobInvariant.PrepareFails` | qemu/job.c:996-1008 | a failed prepare starts an abort by the job that was finalizing |
| `JobSteps.StepIs` | qemu/job.c:540-1270 | every step of a group changes one job, and no other except for references and the move of a whole group to PENDING |
| `JobTheorems.NoAssertionFails` | qemu/job.c:208-221 | in no run does an assertion of the modelled procedures fail: every status change is in the transition table, pause_count and busy are as asserted, results fit commit and abort, only NULL jobs without timer and group are freed, and no freed job is used |
| `JobTheorems.WokenOnce` | qemu/job.c:538-606 | under every interleaving of enters, timers, resumes, cancels and drains at most one wake is pending, only for a parked coroutine with busy set, never after it deferred to the main loop; a coroutine asleep in job_sleep_ns has its timer armed or exactly one wake pending |
| `JobSleeps.SleepEndsBy` | qemu/job.c:384-388 | exactly a firing timer, a pause by the user, a drain or an error stop, job_enter, a cancel and a synchronous wait leave a wake pending for a coroutine that sleeps outside a pause, and a change of the speed if its timer is armed |
| `JobSleeps.CoroutineObeys` | qemu/job.c:609-688 | a coroutine that is woken, yields or comes to a pause point pauses exactly if a pause is in force and it is not force-cancelled, and sleeps exactly as told if neither |
| `JobPauses.PauseCountExact` | qemu/blockjob.c:608-619 | in every run pause_count is 1 if not started, plus 1 if paused by the user, plus the drains and error stops under way, plus one for every stop that came back and found user_paused set |
| `JobPauses.PauseCountConserved` | qemu/job.c:690-758 | so it counts no more than the pauses in force in exactly the runs in which no stop has been overtaken |
| `JobPauses.CountTooHigh` | qemu/blockjob.c:608-619 | it is too high exactly if a pause of the user or another stop was accepted while a stop had released the lock, and was still in force when that stop set user_paused |
| `JobPauses.StuckPaused` | qemu/job.c:740-758 | after an overtaken stop pause_count is positive for the rest of the run, whatever resumes, drains end or cancels come |
| `JobPauseRuns.StopCanBeOvertaken` | qemu/blockjob.c:608-619 | such a run: a sleeping job is stopped by an error, paused by the user in the gap and resumed once; nothing is due, pause_count is 1 and no resume is allowed |
| `JobPauses.PauseEndsBy` | qemu/job.c:609-642 | exactly the end of the last pause and the entries that do not look at pause_count (job_enter, job_cancel, job_finish_sync) wake a coroutine that sleeps in a pause |
| `JobPauses.WokenWhilePaused` | qemu/job.c:626-632 | it is woken with a pause in force exactly by such an entry that leaves a pause |
| `JobPauses.LeavesPause` | qemu/job.c:609-642 | whenever a coroutine goes on after a pause, one earlier step of the run woke it, it has been waiting to run since, and a pause was in force at its wake exactly for such an entry |
| `JobPauseRuns.CanGoOnWhilePaused` | qemu/job.c:626-642 | such a run: a drained job has parked, and job_enter takes it back to RUNNING with the drain still on, where the assertion of job_set_aio_context would fail |
| `JobPauses.DrainedIsQuiescent` | qemu/blockjob.c:99-121 | in every run a job that is paused and whose drain poll is done is paused or completed, as a change of its AioContext asserts |
| `JobPauses.QuiescentUntilWoken` | qemu/job.c:372-381 | it stays asleep and quiescent through every step that neither ends its last pause nor enters it regardless |
| `JobPauses.ContResets` | qemu/monitor/qmp-cmds.c:93-98 | in a state of a run the reset by `cont` asserts nothing false exactly if there is no I/O error to reset or the user has paused the job |
| `JobPauseRuns.ContCanAssert` | qemu/blockjob.c:555-563 | a run to an idle main loop in which it would: a second error while the first one is being resumed |
| `JobGroup.JobGroup.constructor` | qemu/job.c:391-456 | any number of new jobs in one group: a state that every run may start from, with the invariant |
| `JobGroup.JobGroup.TxnDelJob` | qemu/job.c:167-175 | the list loses exactly the first entry of the job |
| `JobGroup.JobGroup.AllCompleted` | qemu/job.c:1044-1053 | the scan answers yes exactly if every member is completed, and its assertion on the result holds |
| `JobGroup.JobGroup.TransitionToPending` | qemu/job.c:177-200 | every member, and nobody else, makes the transition to PENDING, once |
| `JobGroup.JobGroup.SomeNeedsFinalize` | qemu/job.c:990-994 | answers yes exactly if some member is not finalized automatically |
| `JobGroup.JobGroup.CompletedTxnSuccess` | qemu/job.c:1037-1061 | the three loops together do what the group's specification says: wait, become PENDING, or start to finalize |
| `JobGroup.JobGroup.Happens` | qemu/job.c:540-1270 | whatever event comes, the mutable group makes exactly the step of the specification and keeps the group's invariant |
| `JobTheorems.RefsConserved` | qemu/job.c:458-485 | a job's references are one until its dismissal plus one per procedure using it; between procedures it is freed exactly when NULL |
| `JobTheorems.AllOrNothing` | qemu/job.c:929-1075 | without a failed prepare no group ever has both a committed and an aborted member |
| `JobTheorems.GroupDecided` | qemu/job.c:929-1075 | once the main loop is idle again, a decision about one member is a decision about all |
| `JobTheorems.SuccessGoesOn` | qemu/job.c:1034-1061 | a group whose members have all succeeded is finalized at once exactly if no member is to be finalized by hand |
| `JobTheorems.FinalizeBegins` | qemu/job.c:996-1061 | in every run a group begins to be finalized by job-finalize, or because every member is finalized automatically |
| `JobTheorems.CancelledNeverCommits` | qemu/job.c:804-815 | a committed job was not force-cancelled and has result 0 |
| `JobTheorems.PrepareFailure` | qemu/job.c:996-1008 | after job k's prepare failed while job i finalized the group: i is committed exactly if i is not k, everyone else is aborted |
| `JobMixedGroup.GroupCanBeDivided` | qemu/job.c:929-1008 | a run in which one job of a group is aborted and another one committed, by a failed prepare |
| `JobTheorems.StepIsLater` | qemu/job.c:59-84 | no step takes a job out of a completed status, out of NULL, or changes its outcome |
| `JobTheorems.CompletedForGood` | qemu/job.c:59-84 | hence for any two states of a run: completed stays completed, NULL is entered once |
| `JobResults.Predecessors` | qemu/job.c:58-72 | the transition table read by where a transition leads: exactly what each status can have been before |
| `JobResults.VerbsByStatus` | qemu/job.c:74-84 | what a job can be told: pause, resume and changes exactly until it is completed, complete exactly when ready, cancel exactly until it aborts or is done, finalize exactly while PENDING, dismiss exactly when CONCLUDED |
| `JobResults.CompletesWith` | qemu/job.c:804-815 | in every run a job completes with what its .run returned, or with the error of a cancelled job exactly if that was success and it is force-cancelled by then |
| `JobResults.CancelMarks` | qemu/job.c:888-917 | a cancel marks the job, by force exactly if the driver insists or it was before; a soft cancel leaves a job alone whose .run has returned |
| `JobResults.BecomesReady` | qemu/job.c:1029-1034 | job_transition_to_ready makes the job READY, which by the table only a pause and completion leave |
| `JobResults.NobodyStuck` | qemu/job.c:560-688 | in every state of every run a coroutine can go on unless it sleeps with neither timer nor wake, the main loop can unless it is idle, and a returned .run is taken up when the main loop polls |
| `ImageData.BlockStatus` | qemu/qemu-img.c:1514-1521 | the block layer's answer: an error, or at least one byte inside the image, zero if it says so or is unallocated |
| `ImageData.FindNonzero` | qemu/qemu-img.c:1147-1167 | negative exactly for zeros; otherwise the start of the first sector that is not zero |
| `ImageData.CompareBuffers` | qemu/qemu-img.c:1276-1309 | whether the first chunks differ, and the longest prefix of chunks with the same answer |
| `ImageData.UniformEqual` | qemu/qemu-img.c:1276-1309 | a prefix of matching chunks is a matching prefix |
| `Compare.CheckEmptySectors` | qemu/qemu-img.c:1313-1349 | 4 exactly if the read fails, otherwise 0 exactly for zeros and 1 for data |
| `Compare.CompareData` | qemu/qemu-img.c:1551-1574 | 4 exactly if a read fails, otherwise 0 exactly if the range is equal in both images and 1 if not |
| `Compare.CompareChunk` | qemu/qemu-img.c:1534-1588 | for every combination of the two reports: how far the round goes, 4 exactly if an image that has to be read cannot be, otherwise 0 exactly if the chunk is equal |
| `Compare.CompareTail` | qemu/qemu-img.c:1593-1628 | the tail of the longer image: 0 only if it is zero, 1 only if not, 3 and 4 only if a status or a read fails |
| `Compare.ImgCompare` | qemu/qemu-img.c:1500-1631 | for any sound answers of the block layer: 0 only if the images agree after padding with zeros and, with -s, have one size and no block status that differs where the comparison looks; 1 only if not; 3 only if a block status fails, 4 only if a read fails; no other code |
| `Rebase.Overlay.IsAllocated` | qemu/qemu-img.c:3862-3871 | the answer about allocation holds for the reported length, which is at least one byte |
| `Rebase.Overlay.Write` | qemu/qemu-img.c:3957-3968 | a write allocates and fills its range; a failed one any first part of it |
| `Rebase.Overlay.ChangeBacking` | qemu/qemu-img.c:3985-3990 | the backing file changes or stays |
| `Rebase.WriteKeepsView` | qemu/qemu-img.c:3796-3804 | writing into unallocated space what the backing file holds changes nothing for the guest |
| `Rebase.WriteKeepsUnits` | qemu/qemu-img.c:3902-3916 | writes of whole units keep allocation constant on units |
| `Rebase.RegionUnallocated` | qemu/qemu-img.c:3902-3915 | the asserted fact: a region extended to units is unallocated if the range was |
| `Rebase.RegionIs` | qemu/qemu-img.c:3910-3913 | aligning down and up as the source does gives the units that the range touches, cut at the image's end, and goes forward |
| `Rebase.CopyUp` | qemu/qemu-img.c:3957-3968 | copying backing data into units in which the backing files differ keeps the guest's view even if it fails half-way, and allocates no other unit |
| `Rebase.CopyPart` | qemu/qemu-img.c:3954-3974 | equal chunks are skipped and stay unallocated, different ones copied, as zeros exactly past the old backing file's end; it fails only if a write does |
| `Rebase.AllocatedExactly` | qemu/qemu-img.c:3948-3975 | once no byte depends on the backing file, a byte is allocated exactly if it was before or the two backing files differ somewhere in its unit |
| `Rebase.CopyRegion` | qemu/qemu-img.c:3948-3975 | after a region its bytes no longer depend on which backing file is below; only units in which the two differ become allocated |
| `Rebase.HandleUnallocated` | qemu/qemu-img.c:3902-3975 | one round of the loop makes progress, keeps the guest's view, allocates only units in which the backing files differ and changes nothing behind the units it touches; the extended range fits the buffers exactly as RegionFits says |
| `Rebase.RegionFits` | qemu/qemu-img.c:3910-3913 | for every unit size the exact condition for the extended range to fit IO_BUF_SIZE |
| `Rebase.RegionCanOverrun` | qemu/qemu-img.c:3902-3961 | a 2 MiB range that starts inside a 64 KiB cluster, as after a skip in prefix mode, does not fit |
| `Rebase.LargeUnitOverruns` | qemu/qemu-img.c:3705-3705 | a 4 MiB cluster does not fit from the first byte on |
| `Rebase.SufficeIsEnough` | qemu/qemu-img.c:3855-3977 | in every loop over an image every range fits if the image is no longer than a buffer, or units divide the buffer and there is no prefix chain, or units are single bytes |
| `Rebase.ElseOverrun` | qemu/qemu-img.c:3855-3977 | otherwise there is an image of that size and a loop over it with a range that does not fit |
| `Rebase.BuffersExact` | qemu/qemu-img.c:3855-3977 | so the buffers are large enough for every loop over every image of a size exactly under that condition |
| `Rebase.RoundsOnUnits` | qemu/qemu-img.c:3855-3900 | without a prefix chain every round begins on a unit, in an allocated unit or at the end |
| `Rebase.NextRange` | qemu/qemu-img.c:3862-3900 | the range is no longer than a buffer; one that is skipped is allocated or, with a prefix chain, the same in both backing files, and safe; any other is unallocated |
| `Rebase.CopyRound` | qemu/qemu-img.c:3855-3977 | one round of the loop: a skipped range changes nothing, any other is handled as HandleUnallocated says; the round begins where the last one ended, and fails exactly if a call to the block layer has |
| `Rebase.IsAllocatedAbove` | qemu/qemu-img.c:3873-3900 | where nothing between the old and the new backing file is allocated, both read the same |
| `Rebase.CopyLoop` | qemu/qemu-img.c:3855-3977 | on success no byte of the overlay depends on the choice of backing file, and a byte is allocated exactly if it was before or the two backing files differ in its unit; after a failure, which a call to the block layer has caused, no other byte is; its rounds follow one another from start to end over the image as it was, and the buffers sufficed exactly if every range among them that was not skipped fits |
| `Rebase.SwitchKeepsView` | qemu/qemu-img.c:3980-3990 | then switching keeps the guest's view |
| `Rebase.SafeRebase` | qemu/qemu-img.c:3796-3990 | at every write, after the switch and after any failure the guest reads the same bytes, for any backing sizes and any unit size; on success exactly the units in which the backing files differ have become allocated; it fails exactly if a call to the block layer has; the buffers sufficed exactly as in CopyLoop, and always under the condition of BuffersExact |
| `ConvertScan.AlignRun` | qemu/qemu-img.c:1206-1229 | where a run of sectors is cut so that the part ends on a unit: up for data, down for zeros |
| `ConvertScan.IsAllocatedSectors` | qemu/qemu-img.c:1169-1230 | reported data exactly if the first sector is not zero or its zeros share a unit with data; sectors not reported are zero; exactly where the part ends; progress; parts end on units |
| `ConvertScan.DataExact` | qemu/qemu-img.c:1169-1230 | data is reported exactly if there is a sector that is not zero in the unit of the target that the buffer begins in |
| `ConvertScan.ZerosReportedAsData` | qemu/qemu-img.c:1169-1178 | the comment's "true iff the first sector is not zero" fails for zeros followed by data in one unit |
| `ConvertScan.IsAllocatedSectorsMin` | qemu/qemu-img.c:1232-1274 | data is reported on the same condition; skipped sectors are zero; data ends only where a zero area of the asked minimum or up to the end follows, and holds no zero area longer than the minimum by two units; parts end on units |
| `ConvertScan.DataIsDense` | qemu/qemu-img.c:1206-1229 | one reported part of data holds no zero area of a unit or more |
| `ConvertScan.DataFollows` | qemu/qemu-img.c:1206-1229 | what follows a reported part of zeros is data, so the parts of zeros never add up |
| `ConvertParts.ConcatAt` | qemu/qemu-img.c:1704-1714 | source i lies in the concatenation behind all earlier sources |
| `ConvertParts.SelectPart` | qemu/qemu-img.c:1704-1714 | finds the source of a sector and where it starts, skipping empty sources, within bounds |
| `ConvertParts.QueryStatus` | qemu/qemu-img.c:1738-1801 | asks the source the sector belongs to; what it reports as zero is zero in the concatenation; the answer is cut to the last end of a unit of the source, if there is one in it |
| `ConvertParts.StatusAt` | qemu/qemu-img.c:1716-1801 | the status from a sector on is what is known already or, exactly if that ends here, what the block layer answers |
| `ConvertParts.IterationSectors` | qemu/qemu-img.c:1716-1821 | the next range is not empty, stays inside the image, fits the buffer if it is to be read, is zero if reported so, and in compressed mode is whole clusters or ends the image; it is as long as the known status, one request, the buffer and whole clusters allow; the block layer is asked exactly if nothing is known of the sector |
| `ConvertParts.CoRead` | qemu/qemu-img.c:1823-1874 | the buffer holds the concatenation's sectors, across sources; it fails only where a source cannot be read |
| `ConvertParts.NextPiece` | qemu/qemu-img.c:1877-1937 | with -S 0 the whole rest is written; a compressed piece is the whole rest, written exactly if some sector is not zero; otherwise data is written exactly if there is some in the first unit, up to a long enough zero area, and zeros up to the next unit with data; only zeros are zeroed, or left alone exactly on a zero-initialized target |
| `ConvertParts.PieceExists` | qemu/qemu-img.c:1884-1936 | there is always such a piece |
| `ConvertParts.InOnePiece` | qemu/qemu-img.c:1899-1907 | with -S 0 and for a compressed target a range is written in one piece, as data exactly if -S 0 is given or it is not all zero |
| `ConvertParts.CoWrite` | qemu/qemu-img.c:1877-1939 | the target sees exactly the requests of the pieces, one after the other; on success they make up the range, which holds what it should; it fails exactly if a request does; the rest of the target is never touched |
| `ConvertInvariant.StepKeepsInv` | qemu/qemu-img.c:1972-2093 | every step of every copying coroutine keeps the invariant on ranges, order, buffers and target |
| `ConvertInvariant.RunKeepsInv` | qemu/qemu-img.c:1972-2093 | it holds in every state of every interleaving of any number of coroutines |
| `ConvertInvariant.WaitsForSomeone` | qemu/qemu-img.c:2040-2047 | a coroutine has to wait only for a range some coroutine still works on; otherwise it is its turn and everything below is written |
| `ConvertInvariant.PieceForward` | qemu/qemu-img.c:1877-1939 | a piece extends the faithful part of its range and touches nothing behind it |
| `ConvertTheorems.RangesPartition` | qemu/qemu-img.c:1996-2018 | the ranges handed out cover every sector below the position, none twice |
| `ConvertTheorems.ConvertCopies` | qemu/qemu-img.c:1972-2093 | a successful conversion leaves the concatenation of the sources in the target, for every interleaving, min_sparse, alignment, compression and zero initialization |
| `ConvertTheorems.EverySourceCopied` | qemu/qemu-img.c:1704-1714 | every source is found in the target of a successful conversion behind all the sources before it, for any number of sources |
| `ConvertTheorems.WrittenInOrder` | qemu/qemu-img.c:2040-2047 | with ordered writes a range is written only when everything below it is in the target |
| `ConvertTheorems.NotStranded` | qemu/qemu-img.c:2067-2083 | a parked coroutine's predecessor range is still being worked on, and finishing it enters the parked coroutine, also after errors |
| `ConvertTheorems.NoDeadlock` | qemu/qemu-img.c:1990-2093 | as long as a coroutine has not left its loop some coroutine can step, whether the block layer answers with success or with failure |
| `ConvertTheorems.WholeClusters` | qemu/qemu-img.c:1808-1818 | for a compressed target every range handed out in any run starts on a cluster and is whole clusters or ends the image |
| `ConvertTheorems.WritesAreExact` | qemu/qemu-img.c:1894-1936 | in every run a piece is written as data exactly if -S 0 is given or the source is not zero somewhere in the rest of its range, for a target that is not compressed in the unit the piece begins with; with -S 0 and for a compressed target it is the whole range |
| `ConvertTheorems.CompressedWhole` | qemu/qemu-img.c:1899-1918 | a compressed target sees only writes that start on a cluster and are whole clusters or end the image |
| `ConvertTheorems.BuffersHold` | qemu/qemu-img.c:2010-2038 | no coroutine reads or fills more than its buffer, and writes data only from what it has read |
| `ConvertTheorems.StepLeft` | qemu/qemu-img.c:1972-2093 | every step of every coroutine uses up some of a bound on the steps left |
| `ConvertTheorems.RunsAreBounded` | qemu/qemu-img.c:1972-2093 | no run is longer than nine steps a sector and three a coroutine, for every interleaving and every answer |
| `ConvertTheorems.EveryConversionEnds` | qemu/qemu-img.c:2086-2093 | a run that cannot go on has let every coroutine out and has a result |
| `ConvertTheorems.EndsDecided` | qemu/qemu-img.c:2086-2093 | when all coroutines have left, the result is decided, and success is a faithful copy |

## Left out

- Image opening, option parsing, filename handling, format probing, reopening and snapshots in `qemu/block.c`.
- Drain polling and in-flight requests: draining appears only as the counters that pause jobs and quiesce nodes.
- The real permission and I/O functions of drivers and backends, and the default permission functions.
- bdrv_replace_child_bs, which makes no cycle check of its own.
- Order in the parents and children lists, and the open flag that attaching a backing file clears: neither is restored by a rollback.
- BlockLayer.BlockLayer.AttachChildCommon: takes as a parameter whether the AioContexts can be brought together; the move and its undoing are `AioContexts.ContextChange.MoveForAttach` and `MoveBack`.
- What .bdrv_set_perm and .bdrv_abort_perm_update do: a refresh leaves a record for every driver it has asked, and the record changes no graph.
- BlockLayer.BlockLayer.SetFileOrBackingNoperm: for a filter only the slot its driver uses is covered; filling the other one fails the slot assertions of bdrv_child_cb_attach whenever the filter has a child.
- BlockLayer.BlockLayer.Close: does not model the driver's own close function, only what it does to links and slots.
- BlockLayer.BlockLayer.UnrefBh: a deleted node stays in the set of nodes without parents, children or slots.
- AioContexts.ContextChange.ChangeNode: backends are taken to have one root link each.
- Changes of the CPU list during an exclusive section, kicks, queued CPU work, and weak memory orders.
- Liveness of a member that was never started when its group is aborted: the abort waits for it.
- JobTheorems.NoAssertionFails: `cont` and job_set_aio_context are not steps of the runs; when their assertions hold is `JobPauses.ContResets` and `JobPauses.DrainedIsQuiescent`.
- Drivers' own .drained_poll functions, which may end the poll of a drain earlier than job.c does.
- Events, progress and error messages of jobs; job_complete_locked, which only calls the driver.
- Copy offload, salvage mode, bitmaps, progress and targets with a backing file in convert; rate limits.
- ConvertScan.IsAllocatedSectors: computes the remainder modulo the alignment where the source masks with alignment - 1, which is the same for the powers of two it asserts.
- ConvertParts.QueryStatus: counts in sectors; the byte counts of the block layer are multiples of a sector except at the end of an image.
- Rebase.SafeRebase: takes the asserted bdrv_is_allocated answer to be about allocation, not about how long a range the format reports at once, and a range that overruns the buffers to be handled like any other.
- Compare.ImgCompare: starts with the images open and their lengths known; block status reports are compared without their length; it states what each exit code means, not which of several causes the loop meets first.
- Rebase.NextRange: says what a range is, not that it is as long as the format reports.
- The command line tools' other subcommands, the monitor, the network block server and device models.
