# Verified model of the postgres-operator

The operator runs sharded PostgreSQL clusters on Kubernetes, and its router gives clients one
connection to all shards. This project models the parts whose failure loses data or answers a
client wrongly, and proves what they guarantee:

- **Resharding** (`KeyRanges`, `SplitPlan`, `SplitJob`, `SplitWorld`, `SplitSafety`, `SplitOnline`,
  `SplitRuns`, `SplitOffline`, `SplitPods`, `SplitRouters`). A ShardSplitJob copies the rows of one
  shard to new shards, blocks writes, changes the key ranges and deletes the moved rows. `SplitJob` is
  the controller, once as a function and once as the code that updates the objects; `SplitWorld` adds
  shard databases, the source's change log, logical replication, the pods of the data-movement Jobs, and
  clients; `SplitPods` is what each pod does by itself, and `SplitRouters` adds routers that know the
  ShardRange as of their last refresh.
- **Failover** (`PodNames`, `Promotion`, `ShardStatus`, `Reseed`, `Bootstrap`, `Debounce`). Status
  aggregation, the promotion that moves fences, the guard on it, the two loops that delete members,
  the start script that decides who may be primary, and the debouncers.
- **Offline restore** (`Restore`). Two controllers and the StatefulSet controller share one volume
  through an annotation.
- **pg-router** (`Wire`, `Extended`, `Transactions`, `Breaker`, `Refresh`). Wire codecs, prepared
  statements over many backends, pinned transactions, the circuit breaker and hot reload.
- **Printers and scheduler** (`Quoting`, `DatabaseScripts`, `Schedule`). Quoting undone exactly by the
  SQL and shell lexers; which cron instants get a backup.

`Basics` holds what all modules share. Kubernetes API failures are a set of call numbers that fail in
one reconcile, so every lemma about a reconcile covers every pattern of failures, lost status updates
included. A run is any sequence of events; an event that is not enabled changes nothing.

## Where the code does not do what it says

Each of these is proved with a concrete run or input or for all inputs of a kind, beside the condition
under which the code does what it says.

- An online split loses a write accepted by a router that has not yet read the write-block when
  cdc-finalize finds its target drained (`StaleRouterLosesAWrite`); nothing waits for the routers. If every
  router has read the block by then nothing is lost, however stale routers are otherwise
  (`InformedLosesNothing`). With any routers, `StaleVerdict` gives the row that is served for every key, and a
  finalized split cuts over safely exactly when its targets hold every last write and every router has read
  the block (`SafeExactlyIfInformed`).
- An offline split loses a write made between the copy of a table and the cutover
  (`OfflineLosesAWrite`); a key keeps its last write exactly when that write was in the copied snapshot
  or the key is written again (`OfflineVerdict`), so if it was not written in between
  (`QuietKeysAreKept`).
- An offline job that fails after blocking writes keeps them blocked for ever (`OfflineEndsBlocked`,
  `OfflineStaysBlocked`); an undisturbed cleanup unblocks exactly the online jobs (`CleanupUnblocks`).
- The Pending gate compares the target plan with itself, so it accepts exactly the plans that partition
  some interval (`PendingGateAccepts`), also one that leaves keys without a shard
  (`PendingGateMissesLostCoverage`). An accepted plan keeps the partition of the keys exactly when it
  covers the positions of the source and no others (`GatedPlanKeepsPartition`).
- Fencing selects the members of a StatefulSet by a name prefix. Among numbered shards that is exact,
  but promoting a named shard also fences the named shards of the same cluster that extend its name with
  a dash (`PromotionFencesSibling`, exactly when: `MembersAreShardPods`), and certain other clusters of
  the namespace (`SiblingClusterIsClaimed`, exactly when: `CrossClusterPrefix`, `PrefixClaims`).
- A promoted primary is safe from the rogue loop as long as no pod's status annotation gives the rogue
  reason, which the instance manager never writes; with a foreign annotation a promoted pod is deleted
  (`SelfReportedPromotedIsDeleted`, exactly when: `RogueSweepSparesPromoted`).
- The stale-standby loop can delete the shard's own fallback primary, volume included
  (`OnlyMemberIsDeleted`, exactly when: `FallbackPrimaryAtRisk`).
- A failed restore runner keeps the restore annotation for ever, even if its BackupJob is deleted
  (`FailedRestoreIsStuck`, `StuckForEver`, exactly when: `FailedKeepsAnnotation`). A cluster write based on
  a stale annotation starts a pod beside an active runner (`StaleWriteBreaksExclusion`, exactly when:
  `ClusterWriteIsSafe` and, over whole runs, `ExclusiveRuns`); atomic cluster reconciles never do
  (`QuietRunnerIsAlone`).
- The circuit breaker can have two probes in flight (`TwoProbesInFlight`): a dial is admitted while open
  exactly after the cooldown with no probe since the last completion (`AdmissionWhileOpen`), so what holds
  is one admission between completions (`OneAdmissionBetweenCompletions`).
- The router acknowledges Parses that no server has seen, so one that is refused is acknowledged too
  (`RefusedParseIsAcknowledged`); and it takes an added Parse for accepted, so that a statement refused
  once on a backend fails there for ever (`RefusedOnceMisleads`, `HollowForEver`). Apart from that a
  client with valid batches sees exactly what one server would send (`RoutedLikeDirect`).
- Closing a prepared statement and parsing its name again fails on the backends where it was used before
  (`CloseThenParseAgain`, exactly when: `ParsedAgain`), although a comment calls the leftover harmless.
- The session looks only at the first keyword of a Query. ROLLBACK TO SAVEPOINT, a second statement that
  begins a transaction, or BEGIN and COMMIT in one Query set it apart from its backends
  (`RollbackToUnpins`, `UpdateThenBegin`, `BeginAndCommitTogether`, exactly when: `StaysInStep`). A
  transaction ended before its first routed statement is never left, and that statement runs in it
  (`EmptyTransactionStays`, `EndedTransactionGoesOn`).
- A cron schedule with no further instant gets a backup of the zero time (`ExhaustedMakesAJob`,
  `NeverFires`); with `immediate` it gets backups without end (`ImmediateNeverRests`), because a zero time
  is stored as null; with `immediate`, a lost first status update makes a second job (`ImmediateRepeats`);
  two schedules whose cut names are equal share their jobs (`SharedNames`).

## Model

| member | source | states |
|---|---|---|
| KeyRanges.MergeSplitRanges | internal/controller/shardsplitjob_controller.go:550-562 | the removal set and the two appending loops compute the merged list |
| KeyRanges.FlattenTargetRanges | internal/controller/shardsplitjob_controller.go:534-540 | the loop concatenates the targets' ranges |
| KeyRanges.ResolveShard | internal/router/vindex.go:62-81 | the loop over the ranges finds the shard that routing means |
| KeyRanges.ResolveFacts | internal/router/vindex.go:62-81 | a position is routed exactly when a closed interval covers it, and then to an owner of it |
| KeyRanges.OwnsIsResolve | internal/router/vindex.go:62-81 | where no position has two owners the ownership relation is a function and routing is that function |
| KeyRanges.MergedOwns | internal/controller/shardsplitjob_controller.go:550-562 | the ownership relation after a merge, for every list and every plan |
| KeyRanges.MergeRoutes | internal/controller/shardsplitjob_controller.go:550-562 | merging a tiling plan sends source positions to the planned shard and leaves all others where they were |
| KeyRanges.MergeKeepsPartition | internal/controller/shardsplitjob_controller.go:550-562 | a merge keeps a partition a partition, of the same positions, exactly when the plan is one of the positions of the source |
| KeyRanges.MergeKeepsOwners | internal/controller/shardsplitjob_controller.go:550-562 | with new target names a merge keeps one owner per position and the same positions exactly when the plan tiles the source, overlaps within a shard allowed |
| KeyRanges.ReplayedOneOwner | internal/controller/shardsplitjob_controller.go:568-585 | after any number of replays of a tiling plan the ranges are fit for the next split |
| KeyRanges.MergeReplay | internal/controller/shardsplitjob_controller.go:568-585 | for a plan with one owner per position, merging again changes neither routing nor ownership |
| KeyRanges.ReplaysRouteAlike | internal/controller/shardsplitjob_controller.go:568-585 | for such a plan any number of replays has the relation of one merge |
| SplitPlan.ContiguousSpan | internal/router/resharding.go:97-123 | the sorted scan accepts exactly non-empty chains and reports the first fault otherwise |
| SplitPlan.PlanAccepts | internal/router/resharding.go:97-123 | two plans are accepted, with an interval, exactly if both partition it |
| SplitPlan.RefusalExplained | internal/router/resharding.go:97-123 | what each refusal means: an empty list, inverted bounds, a position covered twice, or one between entries that none covers |
| SplitPlan.PendingGateAccepts | internal/controller/shardsplitjob_controller.go:300-320 | the gate accepts exactly the plans whose ranges partition one interval |
| SplitPlan.PendingGateMissesLostCoverage | internal/controller/shardsplitjob_controller.go:312-316 | the gate passes a plan after which a key that had a shard has none |
| SplitPlan.GatedPlanKeepsPartition | internal/controller/shardsplitjob_controller.go:312-316 | a plan that the gate accepts keeps the partition exactly when it covers the positions of the source and no others |
| SplitPlan.SplitHashRange | internal/router/resharding.go:44-61 | a range is split exactly when it has two positions or more, into two adjacent halves with its bounds whose sizes differ by one position at most, the low one being the larger |
| SplitPlan.AutoSplitTiles | internal/controller/autosplit.go:184-196 | an automatic split of a shard's only range passes the gate and tiles that shard, also after replayed merges |
| SplitPlan.CountIsOne | internal/controller/autosplit.go:184-196 | a shard is counted once exactly if no other entry names it |
| SplitJob.Controller.ReconcileModeJobs | internal/controller/shardsplitjob_copy.go:219-268 | the loop over targets creates missing Jobs and reports done, waiting, failed or error as the function does |
| SplitJob.Controller.WriteBlock | internal/controller/shardsplitjob_controller.go:589-608 | the write-block update is the function's, for every pattern of failed calls |
| SplitJob.Controller.Route | internal/controller/shardsplitjob_controller.go:568-585 | ranges and write-block change in one update |
| SplitJob.Controller.CatchUp | internal/controller/shardsplitjob_copy.go:205-215 | setup Jobs, then the block, then finalize Jobs, each only when the one before is done |
| SplitJob.Controller.FindCdcJob | internal/controller/shardsplitjob_abort.go:84-101 | the nested search finds a CDC Job as the function does |
| SplitJob.Controller.CleanUpAborted | internal/controller/shardsplitjob_abort.go:62-82 | abort Jobs, then the release of the block |
| SplitJob.Controller.RunPhase | internal/controller/shardsplitjob_controller.go:100-283 | action and transition of the current phase |
| SplitJob.Controller.ReconcileOnce | internal/controller/shardsplitjob_controller.go:57-283 | one reconcile step by step equals the specification function |
| SplitSafety.ReconcileKeeps | internal/controller/shardsplitjob_controller.go:57-283 | every reconcile keeps the control invariant: phases, Jobs, routing and write-block agree |
| SplitSafety.ReconcileFrame | internal/controller/shardsplitjob_controller.go:57-283 | a reconcile changes no existing Job, adds fresh ones only, and merges the routing at most once, in RoutingUpdate |
| SplitSafety.CdcKeeps | internal/controller/shardsplitjob_copy.go:205-215 | the CDC phase is done only with every finalize Job succeeded |
| SplitSafety.AbortCleanupKeeps | internal/controller/shardsplitjob_abort.go:62-82 | a cleanup that reports completion has lifted the write-block |
| SplitOnline.NoWriteIsLost | internal/controller/shardsplitjob_copy.go:201-268 | in every state of every run of an online split the shard serving a key holds its last accepted write; after the flip source keys are served by their targets, which hold only their own rows |
| SplitOnline.RunHolds | cmd/reshard-copy-poc/main.go:209-280 | the data invariant over every run of controller, pods, replication and clients |
| SplitOnline.FinalizeLink | cmd/reshard-copy-poc/main.go:227-263 | each step of cdc-finalize keeps what its program has established: drained, dropped, foreign rows deleted table by table |
| SplitOnline.SetupLink | cmd/reshard-copy-poc/main.go:209-227 | each step of cdc-setup keeps a target's rows those of the source at its synced and applied positions |
| SplitOnline.DrainedAgrees | cmd/reshard-copy-poc/main.go:295-328 | with all tables synced and no lag a target is a copy of the source |
| SplitOnline.ApplyContent | cmd/reshard-copy-poc/main.go:209-280 | applying the next change where it is due advances a target by one log position |
| SplitOnline.FlipHolds | internal/controller/shardsplitjob_controller.go:194-227 | at the flip the rows each target will serve are the last accepted writes |
| SplitRouters.InformedLosesNothing | internal/controller/shardsplitjob_copy.go:201-214 | over every run with routers that know the ShardRange as of any earlier moment: if at each drain every router has read the write-block, every key's shard holds its last accepted write |
| SplitRouters.StaleVerdict | cmd/reshard-copy-poc/main.go:246-263 | with any routers, over every run through the flip: a moved key is served with its row at the log position where its target's subscription was dropped, or its last write since by a router that has seen the flip; its last write is held exactly if that is the same row |
| SplitRouters.SafeExactlyIfInformed | internal/router/query_router.go:65-70 | for a split that may flip (not forward-only, source named by number), in every reachable state with all targets finalized: no continuation loses a write exactly if the targets hold every last write and, unless no key moves, every router has read the block |
| SplitRouters.UninformedCanLose | cmd/pg-router/querymode.go:60-66 | from every such state a router that has not read the block can lose a write of any moved key |
| SplitRouters.StaleRouterLosesAWrite | cmd/pg-router/main.go:199-231 | a run without failures in which a router that has not refreshed loses a write |
| SplitRouters.CutFinalizes | cmd/reshard-copy-poc/main.go:246-263 | each step of cdc-finalize, with writes still arriving at the source, keeps a target's rows those of the log up to the drop |
| SplitRouters.RouterRun | cmd/reshard-copy-poc/main.go:209-280 | the data invariant over every run with any routers |
| SplitRouters.SameOrStale | internal/router/query_router.go:65-70 | a router's view routes as the current ShardRange unless it has not seen the flip and the key moved; then to the source |
| SplitRouters.ServedRun | internal/router/query_router.go:65-70 | after the flip only routers that have seen it change the row a target serves |
| SplitOnline.Routes | internal/controller/shardsplitjob_controller.go:564-585 | who serves a key before and after the flip |
| SplitRuns.PhaseMoves | internal/controller/shardsplitjob_controller.go:300-344 | a reconcile leaves the phase, moves it to its successor, fails the job, or records Pending for a held one |
| SplitRuns.PhasesGrow | internal/controller/shardsplitjob_controller.go:300-344 | over any run phases only go forward |
| SplitRuns.UndisturbedAdvances | internal/controller/shardsplitjob_controller.go:57-283 | an undisturbed reconcile of a phase that has what it waits for moves to the next phase with that phase's effects done and no Job touched |
| SplitRuns.MissingJobsStart | internal/controller/shardsplitjob_copy.go:219-268 | an undisturbed pass over Jobs none of which failed ends with a Job for every target |
| SplitRuns.JobsVerdict | internal/controller/shardsplitjob_copy.go:219-268 | an undisturbed pass over the Jobs of a mode fails exactly if some Job has failed, is done exactly if all have succeeded, and otherwise waits |
| SplitRuns.PhaseVerdict | internal/controller/shardsplitjob_controller.go:57-283 | in every phase an undisturbed reconcile fails the job exactly for the listed reasons (a failed Job that the phase consults, a refused plan, a failed bootstrap or promotion), moves on exactly if the phase has what it waits for, holds a held job in Pending, and otherwise stays |
| SplitRuns.HeldWaits | internal/controller/shardsplitjob_controller.go:94-105 | whatever fails, a held job that has not started records Pending at most |
| SplitRuns.PromoteIsReady | internal/controller/shardsplitjob_controller.go:356-391 | after the merge of a tiling plan whose targets all have ranges, no source is active and every target is |
| SplitRuns.RoutingChange | internal/controller/shardsplitjob_controller.go:194-227 | the step that changes routing starts blocked, ends unblocked, and is of a single-source split that passed the gate and is not forward-only |
| SplitRuns.RoutingChangesOnce | internal/controller/shardsplitjob_controller.go:194-227 | over any run the key-to-shard relation changes in at most one step |
| SplitRuns.RefusedJobsTouchNothing | internal/controller/shardsplitjob_controller.go:290-298 | merges, multi-source splits and plans the gate refuses never change ranges, and forward-only jobs neither; an offline forward-only job never blocks writes |
| SplitRuns.CleanedIsUnblocked | internal/controller/shardsplitjob_abort.go:31-60 | a job whose AbortCleanup is true has writes unblocked, in every run |
| SplitRuns.CleanupUnblocks | internal/controller/shardsplitjob_abort.go:31-82 | of ended jobs that are still blocked, with their abort Jobs done, an undisturbed reconcile unblocks and marks as cleaned exactly the online ones |
| SplitRuns.UnblockedOnlyAfterAbort | internal/controller/shardsplitjob_abort.go:31-82 | whatever fails, the block is lifted only after every abort Job has succeeded, and the cleanup recorded only then or if there was no CDC Job |
| SplitRuns.OfflineStaysBlocked | internal/controller/shardsplitjob_controller.go:62-82 | once an offline job has ended, no continuation of the run changes its write-block |
| SplitRuns.SourceRowsKept | cmd/reshard-copy-poc/main.go:79-201 | a row leaves the source only by a client's delete or, after the flip, by a clean-up pod of a key the source no longer serves |
| SplitRuns.CleanUpIsComplete | cmd/reshard-copy-poc/main.go:163-174 | over every run: while the source has a row of a target, that target's clean-up Job has not succeeded and the split is not past Cleanup |
| SplitRuns.RidStep | cmd/reshard-copy-poc/main.go:163-174 | each step of the clean-up pod keeps what it has achieved: no row of its target in the tables done, and of the current table only those still to be deleted |
| SplitPods.FinalizeExactly | cmd/reshard-copy-poc/main.go:246-263 | cdc-finalize by itself: it can come to its end exactly if its target has applied the whole log and every row of the target resolves, and however batched it has then dropped subscription and publication and left exactly the target's own rows |
| SplitPods.CopyExactly | cmd/reshard-copy-poc/main.go:176-186 | the offline copy by itself: it can come to its end exactly if every source row resolves, and however batched, and whatever the target held before, the target then holds exactly the source's rows of its keys |
| SplitPods.DeleteExactly | cmd/reshard-copy-poc/main.go:163-174 | the clean-up by itself: it can come to its end exactly if every source row resolves, and in whatever order it has then deleted exactly its target's rows |
| SplitPods.AbortExactly | cmd/reshard-copy-poc/main.go:264-280 | cdc-abort ends in two steps, having dropped the subscription, and the publication if the source answers, and nothing else |
| SplitPods.SetupCompletes | cmd/reshard-copy-poc/main.go:209-227 | with the source at rest cdc-setup comes to its end with its target subscribed at the log's end and holding a copy of the source |
| SplitPods.SetupEndsExactlyIf | cmd/reshard-copy-poc/main.go:209-227 | cdc-setup comes to its end exactly if it has seen all tables copied and its target lags by no more than allowed |
| SplitPods.SyncedIsCopied | cmd/reshard-copy-poc/main.go:209-227 | over every live online run, once cdc-setup has seen all tables copied they are |
| SplitPods.CatchesUp | cmd/reshard-copy-poc/main.go:295-328 | a subscribed target whose tables are copied comes to hold exactly the source's rows once the source is at rest |
| SplitOffline.OffRun | cmd/reshard-copy-poc/main.go:79-201 | over every offline run each copied table is the source's snapshot at its mark, restricted to the target's keys |
| SplitOffline.OfflineVerdict | internal/controller/shardsplitjob_copy.go:189-194 | a source key's last write is held exactly when it was in the copied snapshot or the key was written since the flip |
| SplitOffline.QuietKeysAreKept | internal/controller/shardsplitjob_copy.go:189-194 | a key not written between its table's snapshot and the flip keeps its last write in every continuation |
| SplitOffline.OfflineLosesAWrite | internal/controller/shardsplitjob_copy.go:189-194 | a valid offline split and a run that loses an accepted write |
| SplitOffline.OfflineEndsBlocked | internal/controller/shardsplitjob_controller.go:194-204 | a run in which one failed call at the flip ends an offline split with writes blocked, in every continuation |
| PodNames.StatefulSetRoundTrip | internal/controller/failover_promoter.go:324-335 | the StatefulSet's name is recovered from a pod's name |
| PodNames.SameClusterPrefix | internal/controller/names.go:24-65 | among all shards of a cluster, numbered and named, a volume has a shard's prefix exactly when it is its own, or both are named and its shard extends the other's name with a dash |
| PodNames.PrefixClaims | internal/controller/failover_promoter.go:289-306 | for any two StatefulSets: a volume has the prefix exactly when its StatefulSet is the same or extends the other with a dash |
| PodNames.SiblingShardIsClaimed | internal/controller/names.go:63-65 | a named shard whose volumes another named shard of the same cluster claims |
| PodNames.CrossClusterPrefix | internal/controller/failover_promoter.go:289-306 | exactly which volumes of another cluster's numbered shards match |
| PodNames.SiblingClusterIsClaimed | internal/controller/failover_promoter.go:289-306 | a cluster whose volumes another cluster's shard claims |
| Promotion.Promoter.PatchFence | internal/controller/failover_promoter.go:264-282 | one fence patch, for every pattern of failed calls |
| Promotion.Promoter.FenceNonTargetMembers | internal/controller/failover_promoter.go:289-319 | the loop over the listed volumes equals its specification |
| Promotion.Promoter.Run | internal/controller/failover_promoter.go:181-226 | unfence, exec, fence the others, record, in that order |
| Promotion.Promoter.PromoteCluster | internal/controller/failover_promoter.go:31-80 | fence a failed former primary, promote, reseed it if still down |
| Promotion.FenceOthersFacts | internal/controller/failover_promoter.go:289-319 | fencing the others fences members only, unfences nothing, and when it completes has fenced all but the target |
| Promotion.OnlyTargetIsUnfenced | internal/controller/failover_promoter.go:181-226 | whatever fails, no volume but the target's is unfenced, and others are fenced only after a real promotion |
| Promotion.PromotionLeavesOneUnfenced | internal/controller/failover_promoter.go:181-226 | after a successful real promotion exactly the target is unfenced among the members and nothing else changed |
| Promotion.NoOpPromotion | internal/controller/failover_promoter.go:201-213 | a no-op promotion changes the target's fence and nothing else |
| Promotion.SuccessHadNoFailure | internal/controller/failover_promoter.go:181-226 | a promotion reports success only if none of its calls failed, recording included |
| Promotion.MembersAreShardPods | internal/controller/failover_promoter.go:289-319 | which volumes of its own cluster a promotion fences, for every pair of shards, numbered or named |
| Promotion.PromotionFencesSibling | internal/controller/failover_promoter.go:181-226 | a successful promotion of one named shard that fences the serving primary of another |
| Promotion.ScanMembers | internal/controller/failover_promoter.go:376-393 | the scan finds whether the candidate is fenced and exactly the unfenced members |
| Promotion.ShouldSkip | internal/controller/failover_promoter.go:362-424 | promotion is skipped exactly when the candidate is fenced, a member serves, and the candidate's log does not lead every known position by 2^30 bytes |
| Promotion.SkipsExactlyIf | internal/controller/failover_promoter.go:362-424 | the guard spelled out: a fenced member is skipped exactly if a member is unfenced and the candidate's known log position does not lead every known unfenced one by 2^30 bytes |
| Promotion.GuardedUnfence | internal/controller/postgrescluster_controller.go:485-517 | failover unfences a fenced candidate only if all members are fenced, its log leads, or the volumes could not be listed |
| Promotion.FailoverLeavesOneUnfenced | internal/controller/failover_promoter.go:31-80 | after a successful attempt exactly the candidate is unfenced, and a former primary that is down is gone |
| Promotion.FailedPrimaryIsFenced | internal/controller/failover_promoter.go:31-80 | a primary known to be down is fenced first: if that fails nothing happens, and otherwise it is fenced or gone, whatever becomes of the rest |
| Promotion.AttemptTouches | internal/controller/failover_promoter.go:31-80 | whatever fails, which volumes an attempt may fence, unfence and delete, and under which conditions |
| Promotion.PromotionSucceedsExactlyIf | internal/controller/failover_promoter.go:31-80 | exactly when an undisturbed attempt succeeds |
| Promotion.UnfencedAreAccounted | internal/controller/failover_promoter.go:284-319 | over any run of failover attempts and switchovers of all shards, whatever fails, an unfenced member was promoted last, tried since, or created since |
| ShardStatus.Aggregate | internal/controller/aggregate_status.go:87-260 | the two loops choose the first eligible pod as primary and list the others |
| ShardStatus.PodListedOnce | internal/controller/aggregate_status.go:144-253 | with distinct pod names, a pod is listed exactly once or not at all: what decides is whether it matches and is not a silent ready split target other than the primary |
| ShardStatus.ListedExactlyOnce | internal/controller/aggregate_status.go:144-253 | every name is listed as often as pods of it are due a place |
| ShardStatus.PrimaryIsNoReplica | internal/controller/aggregate_status.go:144-253 | the chosen primary is no replica |
| ShardStatus.PrimaryIsSound | internal/controller/aggregate_status.go:111-142 | without silent split targets the primary is unfenced, and it is a promoted primary if there is an unfenced one |
| ShardStatus.FencedPrimaryIsSilent | internal/controller/aggregate_status.go:162-183 | a fenced primary can only be a split target without a report |
| ShardStatus.ReplicasAreThePods | internal/controller/aggregate_status.go:187-253 | the replicas listed are the shard's pods other than its primary: each is listed with its name, its reported lag, and ready exactly if its report is ready and fresh, Kubernetes finds it ready, it is not fenced and no rogue |
| ShardStatus.PrimaryIsDescribed | internal/controller/aggregate_status.go:144-253 | the primary is the first eligible pod, with its reported lag, and ready exactly if that pod serves |
| ShardStatus.PrimaryExactlyIf | internal/controller/aggregate_status.go:144-253 | there is a primary exactly if an unfenced pod reports to be one or a ready split target reports nothing |
| ShardStatus.ReasonGiven | internal/controller/aggregate_status.go:196-240 | which reason is given, in order of precedence |
| ShardStatus.NamesAreOrdered | internal/controller/failover/detection.go:115-136 | the order of names is lexicographic and total |
| ShardStatus.CandidateIsLeastBehind | internal/controller/failover/detection.go:115-136 | a best replica of the aggregated status is a serving pod that no other serving replica undercuts in reported lag and then name; there is none exactly if no replica serves |
| ShardStatus.SelectCandidate | internal/controller/failover/detection.go:115-136 | the candidate is a ready replica no other ready replica betters in lag and then name |
| Reseed.Sweeper.SweepShards | internal/controller/stale_replica_reseed.go:56-100 | the nested loops equal their specification, stopping at the first error |
| Reseed.Sweeper.DeleteMember | internal/controller/stale_replica_reseed.go:116-149 | volume, pod and cooldown, and what is left when one of them fails |
| Reseed.SweepExact | internal/controller/stale_replica_reseed.go:56-100 | a pass over all shards, whatever fails, deletes only wanted replicas of shards with a ready primary that are not cooling down, and without failures exactly those |
| Reseed.SweepAccounted | internal/controller/stale_replica_reseed.go:56-149 | over a whole pass, whatever fails: three calls per recorded deletion, the pass broken off at the first failing call, and what the last member may have lost without a record |
| Reseed.CooldownIsTenMinutes | internal/controller/stale_replica_reseed.go:75-94 | a wanted pod is deleted again exactly from ten minutes after the recorded time on |
| Reseed.PodDeleted | internal/controller/stale_replica_reseed.go:56-100 | the same in terms of the pods of all shards, which all list the same pods: a pod of a shard is deleted only, and without failures exactly, if its own shard wants it |
| Reseed.SharedListIsDistinct | internal/controller/aggregate_status.go:101-108 | shards that see one list of differently named pods, of which each owns its own, meet what the sweeps assume of pods |
| Reseed.RogueSweep | internal/controller/stale_replica_reseed.go:210-257 | over all shards, exactly which pods the rogue loop deletes: unpromoted primaries beside a promoted one, and pods whose annotation gives the reason |
| Reseed.RogueSweepSparesPromoted | internal/controller/stale_replica_reseed.go:205-257 | a promoted pod of any shard is deleted, whatever fails, only if its annotation gives the reason; without failures exactly when, besides, another pod is the ready primary |
| Reseed.SelfReportedPromotedIsDeleted | internal/controller/stale_replica_reseed.go:222-227 | a promoted pod whose annotation gives the reason is deleted |
| Reseed.SweepSparesChosen | internal/controller/stale_replica_reseed.go:56-100 | a primary chosen from reports is deleted by neither loop, in any pass over all shards and whatever fails |
| Reseed.StaleSweep | internal/controller/stale_replica_reseed.go:56-100 | over all shards, exactly which pods the stale loop deletes |
| Reseed.StandsIn | internal/controller/postgrescluster_controller.go:324-357 | without a chosen pod a numbered shard's primary is the last known one or else pod 0, and exactly when it counts as ready |
| Reseed.FallbackPrimaryAtRisk | internal/controller/postgrescluster_controller.go:324-357 | over all shards, exactly when an undisturbed pass of the stale loop deletes a shard's fallback primary |
| Reseed.OnlyMemberIsDeleted | internal/controller/postgrescluster_controller.go:324-357 | a shard's only, running member is deleted with its volume |
| Reseed.DeletionsAreSpaced | internal/controller/stale_replica_reseed.go:75-94 | over any run of both loops a recorded deletion is not repeated for ten minutes counted from its second |
| Bootstrap.DataDirectory.Run | internal/controller/builders.go:816-969 | the start script changes the directory as the specification function does |
| Bootstrap.StartTwice | internal/controller/builders.go:865-925 | repeating a successful start changes nothing |
| Bootstrap.InitdbIsOrdinalZero | internal/controller/builders.go:927-969 | initdb runs exactly on pod 0 with an empty directory and no other primary named, outside replica clusters; and exactly when a start fails |
| Bootstrap.EmptyFollows | internal/controller/builders.go:927-969 | a filled directory was initialised, or holds a copy and follows the endpoint |
| Bootstrap.StartFollows | internal/controller/builders.go:865-925 | exactly when a member with data is made a standby, whom it follows, and that nothing else changes |
| Bootstrap.HostCutsPort | internal/controller/builders.go:831-840 | the host is what precedes the last colon |
| Bootstrap.SelfIsSameOrdinal | internal/controller/builders.go:833-840 | an endpoint names a pod itself exactly when it was built for that pod |
| Bootstrap.EndpointIsNeverEmpty | internal/controller/primary_endpoint.go:15-47 | with replicas and no hibernation the endpoint is never empty, and pod 0's without a recorded primary |
| Bootstrap.EndpointIsFirstKnown | internal/controller/primary_endpoint.go:15-47 | the endpoint in every case: external source, hibernation, first recorded primary by endpoint or name, pod 0, none |
| Bootstrap.OnlyNamedOrPromotedLead | internal/controller/builders.go:816-969 | over any run of starts, promotions and wipes of a multi-member shard with any non-empty endpoints, a started member without standby.signal was promoted or named at its last start |
| Bootstrap.OneLeaderPerEndpoint | internal/controller/builders.go:816-969 | under one endpoint naming a member only that member or holders of the promoted marker lack standby.signal |
| Bootstrap.NeverFollowsItself | internal/controller/builders.go:816-969 | over any run no member follows itself and every standby follows an endpoint |
| Bootstrap.PromotedKeepsLead | internal/controller/builders.go:897-910 | a promoted member leads through any starts, whichever primary they name, until its volume is wiped |
| Bootstrap.NewShardFollowsPodZero | internal/controller/builders.go:816-969 | in a new shard, whatever the order and number of starts, pod 0 has initialised and leads and every other started member follows it |
| Debounce.Windows.ShouldPromote | internal/controller/postgrescluster_controller.go:836-855 | a failure is acted on exactly when a window opened earlier has lasted eight seconds |
| Debounce.Windows.Sustained | internal/controller/autosplit.go:155-171 | a trigger is sustained exactly when the unbroken breach began at least the span ago |
| Debounce.MovedTracks | internal/controller/postgrescluster_controller.go:836-855 | after any call the map holds, for exactly the keys with an open window, when that window started |
| Debounce.LastedByAnyStart | internal/controller/postgrescluster_controller.go:836-855 | on a forward clock: exactly when some earlier call that could start a window is old enough and the failure has held since |
| Restore.Controller.Reconcile | internal/controller/backupjob_controller.go:120-247 | one reconcile of a restore job, refused jobs included, equals the specification for every pattern of failed calls |
| Restore.Controller.RunRestore | internal/controller/backupjob_controller.go:561-689 | stop, wait, create the runner, follow it |
| Restore.Controller.FinalizeRestore | internal/controller/backupjob_controller.go:698-754 | give the annotation back, then judge the database |
| Restore.RunnerIsAlone | internal/controller/backupjob_controller.go:561-647 | in every run whose cluster writes are safe at most one runner is active, and then its job holds the annotation and shard 0 has no replica and no pod |
| Restore.QuietRunnerIsAlone | internal/controller/postgrescluster_controller.go:231-239 | the same in every run whose cluster reconciles are atomic, or are not interrupted by a backup-job reconcile or hibernation |
| Restore.CurrentIsSafe | internal/controller/postgrescluster_controller.go:231-239 | a write whose reconcile would read the same now is safe, in every run |
| Restore.ClusterWriteIsSafe | internal/controller/postgrescluster_controller.go:231-239 | one cluster write leaves an active runner alone exactly when its reconcile saw the stop, there is no member, or no runner is active |
| Restore.ExclusiveRuns | internal/controller/postgrescluster_controller.go:231-239 | a run keeps the runner alone in all its states exactly when all its cluster writes are safe |
| Restore.StaleWriteBreaksExclusion | internal/controller/postgrescluster_controller.go:231-239 | a run in which a stale write starts a pod beside an active runner |
| Restore.SucceededHasReleased | internal/controller/backupjob_controller.go:698-730 | in every run a succeeded job does not hold the annotation |
| Restore.RestoreVerdict | internal/controller/backupjob_controller.go:698-754 | with a complete runner an undisturbed reconcile gives the annotation back and records success exactly for a ready database, failure exactly for one that crashes or does not start in time, and goes on for one that starts |
| Restore.SucceedsOnlyIfReady | internal/controller/backupjob_controller.go:120-754 | whatever fails, a job succeeds only with a complete runner and a ready database |
| Restore.RestoreFailsExactlyIf | internal/controller/backupjob_controller.go:120-754 | exactly when an undisturbed reconcile fails a job |
| Restore.RestoreProceeds | internal/controller/backupjob_controller.go:561-647 | the annotation is taken and the shard scaled down; a runner starts exactly when the shard is down and empty and the job can build one |
| Restore.RestoreStarts | internal/controller/backupjob_controller.go:120-247 | a new job is recorded Pending and then Running |
| Restore.RestoreCompletes | internal/controller/backupjob_controller.go:561-754 | from any state in which a running job may proceed, the course of events without failures ends in success with the annotation given back |
| Restore.FailedKeepsAnnotation | internal/controller/backupjob_controller.go:120-689 | exactly when a reconcile that fails the job, whatever the reason, leaves it holding the annotation |
| Restore.StuckForEver | internal/controller/backupjob_controller.go:668-682 | a failed job that holds the annotation holds it in every continuation, deletion of the job included, until a job of its name is created |
| Restore.FailedRestoreIsStuck | internal/controller/backupjob_controller.go:668-682 | a run without API failures that ends failed and holding the annotation |
| Restore.StuckBlocksOthers | internal/controller/backupjob_controller.go:880-906 | meanwhile other restores fail and the shard is kept stopped |
| Wire.FrameRoundTrip | cmd/pg-router/pgwire.go:31-57 | a written message is read back, rest of the stream included, exactly when its payload has at most 2^24 - 4 bytes |
| Wire.StreamRoundTrip | cmd/pg-router/pgwire.go:31-57 | any sequence of such messages is read back from its concatenation |
| Wire.EncodeDataRow | cmd/pg-router/scattermode.go:59-72 | the appending loop writes the row's layout |
| Wire.DecodeDataRow | cmd/pg-router/scattermode.go:32-56 | decoding any bytes stays in range and equals the specification |
| Wire.RowRoundTrip | cmd/pg-router/scattermode.go:32-72 | a row decodes to itself exactly when it has fewer than 2^16 columns, each shorter than 2^31 bytes |
| Wire.BindParams | cmd/pg-router/pgwire.go:99-140 | decoding any Bind stays in range and equals the specification |
| Wire.SkipString | cmd/pg-router/pgwire.go:143-152 | the position after a NUL-terminated string, or none |
| Wire.BindRoundTrip | cmd/pg-router/pgwire.go:99-140 | the parameters of any Bind are recovered exactly when each is shorter than 2^31 bytes |
| Wire.ParseRoundTrip | cmd/pg-router/pgwire.go:78-92 | name and text of any Parse are recovered |
| Extended.Router.HandleBatch | cmd/pg-router/extsession.go:48-81 | registration, classification and dispatch of a batch equal the specification |
| Extended.Router.Register | cmd/pg-router/extsession.go:85-99 | a Parse replaces the statement and forgets it on every backend |
| Extended.Router.Exec | cmd/pg-router/extsession.go:102-177 | Parses first, an added Parse where the backend lacks the statement, then the rest |
| Extended.Router.Describe | cmd/pg-router/extsession.go:181-197 | a describe batch is forwarded as it is |
| Extended.Router.Acknowledge | cmd/pg-router/extsession.go:202-217 | Parses and Closes alone are acknowledged without a backend |
| Extended.Router.RelayAnswer | cmd/pg-router/extsession.go:264-282 | the relay loop drops exactly the first added ParseCompletes |
| Extended.RoutedLikeDirect | cmd/pg-router/extsession.go:48-217 | for every valid session, however routed and whatever the database refuses at each batch, the client is sent exactly what one direct connection would send, up to ReadyForQuery's status byte, if and only if no batch misleads; the condition is on what the client sent and the database refused |
| Extended.ExecSim | cmd/pg-router/extsession.go:102-177 | a batch with a Bind is answered as by a direct connection exactly when no refused added Parse stands in the way, and then router and backends agree |
| Extended.EqualUnlessExposed | cmd/pg-router/extsession.go:48-217 | the same iff on the router's state, with the invariant that connects router, backends and client |
| Extended.BelievedIsUsed | cmd/pg-router/extsession.go:138-161 | the router believes a statement prepared on a backend exactly when it was used there since it was last parsed |
| Extended.HollowIsRefused | cmd/pg-router/extsession.go:138-161 | of what the client has, exactly that is believed on a backend and not there whose first use there was refused |
| Extended.RefusedParseIsAcknowledged | cmd/pg-router/extsession.go:199-217 | a Parse that the database refuses is answered by ParseComplete |
| Extended.RefusedOnceMisleads | cmd/pg-router/extsession.go:155-161 | a valid session without acknowledged Parses that a refused added Parse sets apart from a direct connection |
| Extended.HollowForEver | cmd/pg-router/extsession.go:155-161 | over any batches that do not parse it again, a statement believed where it is not is never prepared there and every Bind of it fails |
| Extended.UnroutedBatch | cmd/pg-router/extsession.go:128-136 | a batch without a route is answered by one error and reaches no backend |
| Extended.PreparedTwice | cmd/pg-router/extsession.go:155-161 | adding a Parse fails exactly when the database refuses the text or the backend still has that name |
| Extended.ParsedAgain | cmd/pg-router/extsession.go:284-295 | a name closed and parsed again can be bound on a backend exactly if it was not used there before the Close or that use was refused, while a direct connection can always bind it |
| Extended.CloseThenParseAgain | cmd/pg-router/extsession.go:284-295 | a session that cannot bind a name it has closed and parsed again |
| Transactions.Session.Handle | cmd/pg-router/persession.go:82-156 | one simple Query or batch, of any number of statements, changes the session and the backends' transactions as the specification does |
| Transactions.Session.BackendForRouted | cmd/pg-router/extsession.go:220-238 | the pinned backend, or the routed one after sending it the pending BEGIN |
| Transactions.StatementsFollowBegin | cmd/pg-router/persession.go:82-156 | in every session each deferred BEGIN goes to at most one backend, before its transaction's statements, which all go there |
| Transactions.PinnedUntilEnded | cmd/pg-router/persession.go:90-98 | a pinned session sends everything to its backend; COMMIT, ROLLBACK and END, and nothing else, make it idle |
| Transactions.DeferredOrSent | cmd/pg-router/persession.go:100-155 | an idle session defers BEGIN and START and nothing else; any other routed message goes to its own backend within no transaction |
| Transactions.FirstPins | cmd/pg-router/extsession.go:220-238 | the first routed message of a transaction brings the BEGIN to its backend and pins the session there |
| Transactions.WholeTransaction | cmd/pg-router/persession.go:82-156 | from any idle session: exactly what a whole transaction sends, all to the backend of its first statement, and that the session is idle after its end |
| Transactions.BrokenEndsSession | cmd/pg-router/persession.go:82-156 | a message that reaches a backend ends the session exactly when the connection breaks, and what was sent by then |
| Transactions.OnlyPinnedIsOpen | cmd/pg-router/persession.go:82-156 | if every message that reaches a backend fits, only the pinned backend has an open transaction in every state of the session |
| Transactions.StaysInStep | cmd/pg-router/persession.go:90-98 | exactly which messages keep session and backends in step, whatever statements their texts hold |
| Transactions.PlainStaysInStep | cmd/pg-router/persession.go:82-156 | clients that send one statement per message and begin and end transactions by the keywords stay in step, in whatever order and however routed |
| Transactions.RollbackToUnpins | cmd/pg-router/persession.go:90-98 | a session that ROLLBACK TO leaves idle while its backend has a transaction open |
| Transactions.RollbackToKeyword | cmd/pg-router/persession.go:245-252 | ROLLBACK TO SAVEPOINT has the first keyword of a ROLLBACK |
| Transactions.UpdateThenBeginKeyword | cmd/pg-router/persession.go:245-252 | an update with a routing key, followed by BEGIN in one Query, has the first keyword of an update |
| Transactions.UpdateThenBegin | cmd/pg-router/persession.go:110-155 | such a Query leaves the session idle and a transaction open on the backend |
| Transactions.BeginAndCommitTogether | cmd/pg-router/persession.go:100-108 | BEGIN and COMMIT in one Query pin a backend that has no transaction open |
| Transactions.KeywordIsFirstWord | cmd/pg-router/persession.go:245-252 | the keyword is the first word in lower case, whatever blanks and parentheses precede it and whatever follows |
| Transactions.EmptyTransactionStays | cmd/pg-router/persession.go:111-139 | a transaction with no routed statement so far stays as it is over any messages exactly if none of them has a route, the ending COMMIT or ROLLBACK included |
| Transactions.EndedTransactionGoesOn | cmd/pg-router/persession.go:139-155 | the next routed statement is then sent inside the transaction that the client has ended |
| Breaker.StateIsHistory | cmd/pg-router/dialer.go:102-144 | counter, opening time and probe flag are those the history of completions and admissions defines |
| Breaker.OffLetsAllThrough | cmd/pg-router/dialer.go:102-144 | a breaker that is off keeps no state and lets every request through |
| Breaker.AdmissionWhileOpen | cmd/pg-router/dialer.go:102-120 | while open, a dial is admitted exactly after the cooldown with no probe since the last completion |
| Breaker.OneAdmissionBetweenCompletions | cmd/pg-router/dialer.go:102-144 | while open, at most one dial is admitted between two completions |
| Breaker.TwoProbesInFlight | cmd/pg-router/dialer.go:128-144 | a history with two probes in flight |
| Breaker.Dialer.Allow | cmd/pg-router/dialer.go:102-120 | admission and its effect on this backend's breaker, others untouched |
| Breaker.Dialer.OnFailure | cmd/pg-router/dialer.go:128-144 | a failure's effect on this backend's breaker, others untouched |
| Breaker.Dialer.Dial | cmd/pg-router/dialer.go:68-86 | a dial succeeds exactly when one of its attempts does, makes no attempt when refused, and reports once; other backends' breakers are untouched and a breaker that is off keeps no state |
| Refresh.NoLostWakeUp | cmd/pg-router/watch.go:63-81 | under any interleaving an uncovered change leaves a signal or a loop on its way to refresh |
| Refresh.QuiescentIsCurrent | cmd/pg-router/main.go:199-231 | at rest every delivered change was followed by a refresh |
| Refresh.ReceivedIsDelivered | cmd/pg-router/watch.go:63-81 | a received change is delivered by its watcher's next signal and waits in the channel |
| Refresh.DeliveredWasReceived | cmd/pg-router/watch.go:63-81 | nothing is delivered that was not received |
| Refresh.BurstIsOneRefresh | cmd/pg-router/main.go:233-250 | whatever is signalled in the debounce window is covered by the one refresh that follows |
| Refresh.CancelledWhileAbsorbing | cmd/pg-router/main.go:225-250 | a loop cancelled in the debounce window still refreshes once |
| Refresh.RefreshesAreCaused | cmd/pg-router/main.go:199-250 | bursts are coalesced: over any run no more refreshes start than changes were delivered and ticks fired |
| Refresh.TickerRefreshes | cmd/pg-router/main.go:199-231 | the ticker alone brings a refresh that covers everything delivered |
| Refresh.EndedStays | cmd/pg-router/main.go:219-231 | a cancelled waiting loop ends for good |
| Refresh.ChangesAreCovered | cmd/pg-router/main.go:199-250 | every delivered change is followed by a refresh within four steps of the loop, whatever the watchers do |
| Quoting.QuotedRoundTrip | internal/controller/postgresdatabase_controller.go:773-787 | doubling quotes is undone by the SQL lexer for all strings |
| Quoting.TokenRoundTrip | internal/controller/postgresdatabase_controller.go:773-787 | any identifier or literal is read back as one token |
| Quoting.StatementRoundTrip | internal/controller/postgresdatabase_controller.go:391-452 | every printed statement lexes to the tokens it was made of |
| Quoting.ArgRoundTrip | internal/controller/postgresdatabase_controller.go:789-791 | any quoted value without NUL is one shell word with that text, quotes, blanks and newlines included |
| Quoting.ScriptRoundTrip | internal/controller/postgresdatabase_controller.go:391-452 | the shell splits a script of plain command lines into exactly the argument lists meant |
| DatabaseScripts.AppendSchema | internal/controller/postgresdatabase_controller.go:391-417 | the schema's lines and its grants are appended |
| DatabaseScripts.AppendExtension | internal/controller/postgresdatabase_controller.go:419-452 | the extension's line is appended |
| DatabaseScripts.AppendGrants | internal/controller/postgresdatabase_controller.go:696-731 | the loop appends one line per grant with a role and an applying privilege |
| DatabaseScripts.ScriptMeansStatements | internal/controller/postgresdatabase_controller.go:391-452 | one psql per statement, on the named database, with an argument that lexes to that statement |
| DatabaseScripts.GrantScriptMeans | internal/controller/postgresdatabase_controller.go:696-748 | the grant script runs exactly the intended statements for all names |
| DatabaseScripts.SchemaScriptMeans | internal/controller/postgresdatabase_controller.go:391-452 | the schema and extension scripts run exactly the intended statements for all names |
| Schedule.Reconciler.Run | internal/controller/scheduledbackup_controller.go:91-157 | create, then record: one reconcile equals the specification |
| Schedule.JobsAreInstants | internal/controller/scheduledbackup_controller.go:91-178 | over any run the jobs are exactly the schedule's first answers after creation, in order, none before its time, and only the last can be the zero time |
| Schedule.DueIsCreated | internal/controller/scheduledbackup_controller.go:101-157 | an undisturbed reconcile creates and records a due answer of the schedule |
| Schedule.ImmediateRepeats | internal/controller/scheduledbackup_controller.go:164-167 | after a lost first status update a second job is made exactly with immediate |
| Schedule.ExhaustedMakesAJob | internal/controller/scheduledbackup_controller.go:91-178 | with all instants served, the next undisturbed reconcile makes a job of the zero time exactly when the schedule has no further instant |
| Schedule.ExhaustedIsDone | internal/controller/scheduledbackup_controller.go:91-178 | after it no run creates anything |
| Schedule.NeverFires | internal/controller/scheduledbackup_controller.go:91-178 | a schedule that never fires gets at most that one job in every run |
| Schedule.ImmediateNeverRests | internal/controller/scheduledbackup_controller.go:91-178 | with immediate such a schedule gets a backup in every other undisturbed reconcile, for ever |
| Schedule.NamesAreDistinct | internal/controller/scheduledbackup_controller.go:204-215 | jobs of one name have one instant and one cut schedule name, for all instants, the zero time included |
| Schedule.PrefixIsSolid | internal/controller/scheduledbackup_controller.go:204-215 | every cut name is non-empty and neither starts nor ends in a dash |
| Schedule.PrefixIsCutName | internal/controller/scheduledbackup_controller.go:204-215 | the prefix is the schedule's name if it fits, and else its longest beginning that fits and does not end in a dash |
| Schedule.NamesAreShort | internal/controller/scheduledbackup_controller.go:204-215 | a job name has at most 63 characters, for instants printed in up to 46 |
| Schedule.SharedNames | internal/controller/scheduledbackup_controller.go:204-215 | exactly when two schedules share a job name |

## Left out

- SplitOnline.NoWriteIsLost: assumes that the plan tiles the source's ranges, that target names are new, that a target's ranges name it and that every row is of a known table, because the controller does not check the first three; and that a client's write reads the current ShardRange, which SplitRouters drops.
- SplitRouters.StaleVerdict: a router's write is routed and committed in one step; a transaction that spans the flip, and cutoverWindow, which the code does not enforce, are not modelled.
- Failed API calls have no effect in all modules; an update that was applied although its answer was lost is not an event.
- SplitWorld: Job names are new, Jobs are not deleted, and no table is created during a split; a reconcile is atomic with respect to other actors; key positions are integers and a vindex is an arbitrary function to them.
- Target promotion: adopting the target's resources and labels, and bootstrapping target StatefulSets, are outcomes observed by the reconcile.
- SplitPlan: hexadecimal bounds and their successor are integers and plus one.
- Promotion.Promoter.Run: a missing Kubernetes client and an unconfigured executor are not modelled; the annotation it records is two calls that may fail.
- Reseed.Sweeper.DeleteMember: the escalation to a forced delete on a dead node is one delete.
- Bootstrap.DataDirectory.Run: stale postmaster.pid files, permissions and credentials files are left out; pg_basebackup fails or succeeds as a whole.
- Bootstrap.OnlyNamedOrPromotedLead: starts of single-member shards and of replica clusters are not events of its runs, because a single member leads whatever its endpoint says and a replica cluster has no primary of its own.
- Reseed.FallbackPrimaryAtRisk: the iff is for passes without API failures; with failures its condition is still necessary (PodDeleted).
- Restore: backups, restores in other execution modes and the runner's commands; why a job is refused is one flag; a reconcile is atomic except that a cluster reconcile's read and write are two steps.
- Extended.RoutedLikeDirect: for batches of Parses first, the unnamed one before others, then one Bind followed by uses of its portal and Closes, or one Describe of a statement just parsed, or Closes; for clients that parse a name once, not again after a Close (see ParsedAgain), and bind what is prepared; and for routed batches (see UnroutedBatch). Flush and batches over several shards are outside what the router says it supports; portals that outlive a batch are not modelled, nor is the status byte of ReadyForQuery, in which the router and a server differ inside a failed transaction: the router answers `T`, a server `E`.
- Extended: the database refuses and accepts texts alike on all shards at a time; failing texts are those that fail when executed.
- Transactions.OnlyPinnedIsOpen: its condition is on what the texts do to a backend's transaction; PlainStaysInStep is the part a client can follow.
- Quoting.ScriptRoundTrip: plain command lines only; the conditional forms with command substitution in the scripts of databases, wrappers and servers are refused by the lexer.
- Quoting.ArgRoundTrip: a NUL, which no shell word and no PostgreSQL text can hold, is a character like others.
- Quoting: PostgreSQL's cut of identifiers at 63 bytes; Unicode escapes and string constants continued over a newline, which are never printed; characters special to the shell outside quotes are refused by the lexer.
- DatabaseScripts: foreign-data wrappers, servers, options and qualified names, which add printers of the same kind; trimming and upper-casing of the spec's values.
- Schedule.JobsAreInstants: for `immediate` off, and without jobs deleted by retention or made by another schedule of the same cut name (see SharedNames).
- Debounce.LastedByAnyStart: needs a clock that does not run backwards; the methods' contracts do not.
- Scatter merging, aggregates, key extraction, SCRAM, TLS, the pooler, metrics, events, object builders, RBAC and the lease election.
