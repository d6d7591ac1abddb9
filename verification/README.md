# Kruise Rollouts, modelled in Dafny

The repository is a set of Kubernetes reconcilers that bring a new version of a
workload out step by step. Each reconciler is a function over a small state, called
again and again, between which users, kubelets and other controllers change what it
reads. This project models the ones with the most state and arithmetic, and proves what
they keep over whole runs.

| files | subject |
|---|---|
| `Arithmetic`, `Sorting` | `IntOrString` values, rounding, 32-bit width, sorting by a comparison |
| `ReplicaSets`, `RollingUpdate`, `RollingController`, `RollingProperties`, `RollingOrder`, `SharedArray`, `OldShare`, `RollingConvergence` | the Advanced Deployment's rolling update under a partition limit |
| `ProportionalScaling`, `ScalingBranches` | scaling a Deployment with several ReplicaSets |
| `BatchRelease`, `BatchReleaseRuns` | the executor of a BatchRelease: batches, verification, recalculation |
| `Rollout`, `RolloutController`, `RolloutRuns`, `RolloutChanges` | the rollout's machine over steps, jumps and changed plans |
| `RolloutProtocol`, `RolloutProgress` | rollout and executor together, as a protocol over one shared object |
| `LabelPatch`, `LabelPatchProperties` | batch labels on pods |
| `Gateway`, `GatewayProperties`, `GatewayRequests` | HTTPRoute rewriting by weight and headers, and its undoing |
| `Percentage` | pod numbers as whole percentages |
| `Expectations`, `DaemonSet`, `DaemonSetProperties` | updating a native DaemonSet by deletions |
| `Grace` | grace periods after changes of network resources |
| `Finalising` | the ordered tasks that end a rollout |

Where the source changes objects step by step, a class or a loop does the same and its
contract equates the new state with a function of the old one (`NewStatus`,
`ReleaseManager`, `DeploymentController`, `DaemonSetController`, `GatewayController`,
`Finaliser`, the two expectation stores, and the loops over pods, sets and rules). The
results are proved about those functions, over all inputs and over runs in which edits,
failing calls, stale reads and workload events come in any order.

The API server is assignment on the modelled objects. Whether a call fails, what a cache
returns and what time it is are inputs. A plan, and a strategy without its pauses, stand
for their own hashes, so that hashing is injective.

## What the proofs brought out

Each of these is a lemma with the exact condition or with an input that shows it.

- `append(oldRSs, newRS)` in `rolling.go` may share its array with `oldRSs`, and finding
  the new ReplicaSet sorts that array. The loop then runs over the old sets if and only if
  the new set is the newest one. It takes pods from the new set exactly when an old set is
  younger and the budget exceeds the pods of all older ones; after a roll back it may empty
  the new set in this way, and the roll back may then never complete. The budget itself
  counts the new set in place of the youngest. Where that one is large the loop may find
  nothing due, for ever. Where it is smaller than the new set the old sets may fall below
  their share: under a partition of 80%, which promises one old pod, a round can remove the
  last one, and the next round makes the new set complete.
- Proportional scaling can leave more pods than asked for, when the leftover makes the
  largest set negative; it never leaves fewer. Its 32-bit product can wrap.
- A BatchRelease plan without batches is taken in as batch -1 and the workload is upgraded
  to that batch. A partition at or beyond the number of batches is never at rest.
- A changed step list can leave the step index beyond the list for a round, exactly when
  the next index already is the step to resume at and the current step is gone. It takes a
  patched next index to get there.
- `CheckNextBatchIndexWithCorrect` corrects a copy that is not stored: a bad next index
  never jumps, but stays until the step changes.
- A jump, or a changed plan, can take a step to its traffic routing on the number of
  updated pods alone, with no pod ready and no batch verified.
- The comment on `FilterPodsForUnorderedUpdate` says that really rolled back pods are
  patched in priority. They are listed first, and the patcher takes pods from the end, so
  that pods needing no update are labelled before them whenever not all are due a patch.
- A header rewrite drops rules that carry a canary reference. After a weight it loses the
  rules of the stable service for good. The loop over matches without a path counts these
  but indexes all matches, which agrees if and only if they come first.
- The comment on `ParseIntegerAsPercentageIfPossible` has "97%" for 98 of 99; the code
  gives "98%", which is exact.
- A terminating pod takes nothing of the DaemonSet deletion quota, but the chosen prefix is
  cut by number and may contain it: it is deleted again in place of another pod, although
  the comment says that no other delete is issued.
- Restoring a route removes the first canary reference of a rule only: a rule with two of
  them changes again with every restoring.
- The grace period holds in every run if and only if it is at most one nanosecond longer
  than the cleaner's interval.
- A rollout deleted while its finalising is under way goes on from the stored task in the
  sequence of the new reason, and tasks before it are never done. A blue-green success
  deleted at its first task ends right after routing all traffic to the new version.

## Model

| member | source | states |
|---|---|---|
| `RollingController.CleanupUnhealthyReplicas` | pkg/controller/deployment/rolling.go:161-195 | the loop over the sets by age removes unavailable pods up to its budget, and fails on a status ahead of the size or a refused patch, as `Cleanup` says |
| `RollingController.ScaleDownInOrder` | pkg/controller/deployment/rolling.go:198-244 | the scale-down loop takes pods from the sets in order until its budget is spent |
| `RollingController.DeploymentController.ReconcileNewReplicaSet` | pkg/controller/deployment/rolling.go:65-80 | the new set's size, and whether it changed or the patch failed |
| `RollingController.DeploymentController.ScaleDownOldReplicaSets` | pkg/controller/deployment/rolling.go:198-244 | scaling the old sets down in place, with and without spare capacity in the array behind the slice |
| `RollingController.DeploymentController.ScaleUpOldReplicaSets` | pkg/controller/deployment/rolling.go:247-257 | the largest active old set takes all that is missing |
| `RollingController.DeploymentController.ReconcileOldReplicaSets` | pkg/controller/deployment/rolling.go:83-158 | the old sets after clean-up and scale-down, or scale-up |
| `RollingController.DeploymentController.RolloutRolling` | pkg/controller/deployment/rolling.go:34-62 | one round of the rolling update: old sets are touched only when the new one was not |
| `ReplicaSets.CountReplicas` | pkg/controller/deployment/util/deployment_util.go:582-590 | the loop adds up the requested sizes |
| `ReplicaSets.CountAvailable` | pkg/controller/deployment/util/deployment_util.go:615-623 | the loop adds up the available pods |
| `ReplicaSets.CreatedBeforeOrders` | pkg/controller/deployment/util/deployment_util.go:868-873 | age, with names deciding between equals, is a strict order whose incomparability is transitive |
| `RollingProperties.CleanupEffect` | pkg/controller/deployment/rolling.go:161-195 | clean-up removes unavailable pods only: what runs stays, sizes drop by what it reports, never more than the budget |
| `RollingProperties.ScaleDownEffect` | pkg/controller/deployment/rolling.go:198-244 | the loop removes what it reports, at most the budget, and exactly the smaller of budget and size when no patch fails |
| `RollingProperties.ScaleDownOldsEffect` | pkg/controller/deployment/rolling.go:198-244 | it removes at most the pods available beyond `replicas - maxUnavailable`, and never enlarges the new set, also over a shared array |
| `RollingProperties.ScaleUpOldsEffect` | pkg/controller/deployment/rolling.go:247-257 | scaling up adds exactly what is missing and loses nothing that runs |
| `RollingProperties.RoundKeepsAvailability` | pkg/controller/deployment/rolling.go:34-244 | no round takes available pods below the smaller of what there was and `replicas - maxUnavailable`, whatever fails |
| `RollingProperties.RunKeepsAvailability` | pkg/controller/deployment/rolling.go:34-244 | the same over every run of rounds and status reports |
| `RollingProperties.ReconcileOldsSizes` | pkg/controller/deployment/rolling.go:83-158 | the old sets grow at most to `replicas - max(limit, N)`, their share, and the new set does not grow; unless the array is shared with a younger old set, the new set stays and the old ones keep that share |
| `RollingProperties.RoundSizes` | pkg/controller/deployment/rolling.go:34-158 | one round, with any ages, sharing and failing patches, keeps the total within its start or `replicas + maxSurge`, and the new set within its start or the partition while old pods exist; unless the array is shared with a younger old set, the new set does not shrink, except down to `replicas`, and the old sets keep their share |
| `RollingProperties.RunSizes` | pkg/controller/deployment/rolling.go:34-158 | the same upper bounds over every run with any availability, sharing and failing patches; the lower ones over runs that share no array, or begin with the new set as the newest |
| `OldShare.SharedMissesShareExactlyWhen` | pkg/controller/deployment/rolling.go:198-244 | a scale-down over a shared array takes the old sets below their share if and only if an old set is younger than the new one and both the budget and the old pods reached before the new set exceed what is beyond the share; and how many are left then |
| `OldShare.MissesShareByAge` | pkg/controller/deployment/rolling.go:198-244 | with no patch refused that means: the set missed is smaller than the new one, and both what is spare and the pods of the older sets exceed what is beyond the share |
| `OldShare.RoundMissesShareExactlyWhen` | pkg/controller/deployment/rolling.go:83-158 | a whole round takes the old sets below their share if and only if it scales down over a shared array and its fleet, after the clean-up phase, is such a one |
| `OldShare.RunKeepsShare` | pkg/controller/deployment/rolling.go:34-158 | a run none of whose rounds does so keeps the share the old sets began with |
| `OldShare.LastOldGoesExactlyWhen` | pkg/controller/deployment/rolling.go:83-158 | while the partition grants less than everything, a round removes the last old pod if and only if, after its clean-up phase, it takes everything from old sets older than the new one, over an array shared with a younger one |
| `OldShare.OldPodStaysExactlyWhen` | pkg/controller/deployment/rolling.go:83-158 | while the partition grants less than everything, a run keeps an old pod for ever if and only if no round of it does that; none does without sharing or with the new set as the newest |
| `OldShare.PartitionGrants` | pkg/controller/deployment/util/deployment_util.go:930-940 | how many pods a partition grants: a number held within 0 and `replicas`; or the least number that makes up the percentage, but with more than one pod and less than 100% no more than all but one; a malformed one grants none |
| `OldShare.RunRespectsPartition` | pkg/controller/deployment/util/deployment_util.go:708-735 | while an old pod exists, no run takes the new set beyond the larger of its start and that number |
| `OldShare.PercentKeepsOldPodExactlyWhen` | pkg/controller/deployment/util/deployment_util.go:930-940 | so that under such a partition the last old pod goes if and only if a round takes it over a shared array |
| `OldShare.RollBackLosesLastOld` | pkg/controller/deployment/rolling.go:149-155 | a roll back under an 80% partition: one round removes all three old pods and the next completes the new set |
| `RollingProperties.CreationSize` | pkg/controller/deployment/sync.go:186-197 | the new set is created with all pods if there are no old ones, else with what is missing to `replicas + maxSurge` as far as the partition grants it, and without a surge with one pod at least; which keeps the total within `replicas + maxSurge`, or adds that one pod |
| `RollingOrder.OldestCleanedFirst` | pkg/controller/deployment/rolling.go:161-195 | clean-up takes pods from a set only when no older one has an unavailable pod left |
| `RollingOrder.HighestRevisionScaledFirst` | pkg/controller/deployment/rolling.go:198-244 | the scale-down over the old sets takes pods from one only when all of higher revisions are empty |
| `RollingOrder.LargestScaledUp` | pkg/controller/deployment/rolling.go:247-257 | what is missing goes to one set that no active one is larger than, the oldest of the largest, and no other changes |
| `RollingOrder.RefusedStaysInRound` | pkg/controller/deployment/rolling.go:34-257 | a set whose patch is refused is the same after the round, and so are all if it is the new one when it was due |
| `RollingProperties.SharedIsHarmless` | pkg/controller/deployment/rolling.go:149-155 | when the new set is the newest, sharing the array only changes the order of the old sets |
| `RollingConvergence.RoundRefinesCounters` | pkg/controller/deployment/rolling.go:34-158 | with all pods available a round does to the two totals what a machine on two counters does, whatever the number, age and order of the sets, if and only if it is not misled by a shared array |
| `RollingConvergence.NextApproachesGoal` | pkg/controller/deployment/rolling.go:34-158 | every round that changes a total brings both nearer to a goal that stays, and a round changes nothing exactly at the goal |
| `RollingConvergence.NextStalls` | pkg/controller/deployment/rolling.go:65-158 | exactly when a round changes nothing: at rest, or below the partition with neither surge nor unavailability |
| `RollingConvergence.StrategyCanMove` | pkg/controller/deployment/util/deployment_util.go:764-784 | a rolling-update strategy with no negative values never has both bounds zero |
| `RollingConvergence.StrategyBounds` | pkg/controller/deployment/util/deployment_util.go:764-784 | the surge is rounded up and the unavailability down, at most all pods; both nothing means one unavailable; and a malformed value makes both zero |
| `RollingConvergence.RollingConverges` | pkg/controller/deployment/rolling.go:34-158 | the rolling update ends at the goal after as many rounds as its distance, from any fleet and over shared arrays too, unless a round is misled |
| `RollingConvergence.RollingReachesPartition` | pkg/controller/deployment/rolling.go:34-158 | so that a new set that had no more than its partition grants ends with just that, and the old ones with the rest |
| `RollingConvergence.NewestIsStraight` | pkg/controller/deployment/rolling.go:149-155 | no round of a run is misled while the new set is the newest, or when no array is shared |
| `RollingConvergence.SharedRestsExactlyWhen` | pkg/controller/deployment/rolling.go:83-158 | a round over a shared array changes no total if and only if the goal is reached or, with old pods beyond their share, the budget, which counts the new set in place of the youngest, is empty |
| `RollingConvergence.StuckForEver` | pkg/controller/deployment/rolling.go:83-158 | and in the second case such rounds leave every set as it is for ever, away from the goal |
| `RollingConvergence.RollBackGetsStuck` | pkg/controller/deployment/rolling.go:149-155 | a roll back whose youngest set has six of eight old pods: it stays at twelve pods for ten |
| `SharedArray.SharedListsOldsIff` | pkg/controller/deployment/util/deployment_util.go:547-561 | with a shared array the loop sees exactly the old sets if and only if the new set is the newest |
| `SharedArray.SharedShrinksNewExactlyWhen` | pkg/controller/deployment/rolling.go:198-244 | over a shared array the new set loses pods if and only if it has some, an old set is younger, the budget exceeds the pods of all older sets and no patch is refused up to it |
| `SharedArray.ScaleDownOldsLoses` | pkg/controller/deployment/rolling.go:198-244 | scaling down takes from the new set exactly what the budget leaves after all older sets, and without a shared array nothing |
| `SharedArray.RoundShrinksNewExactlyWhen` | pkg/controller/deployment/rolling.go:34-158 | exactly when a whole round takes pods from the new set, and how many: those beyond the size of the deployment, or those a scale-down over a shared array takes; this runs the clean-up phase, and what can be read off the fleet after it is the condition of `SharedShrinksNewExactlyWhen` |
| `RollingConvergence.RollBackShrinksNew` | pkg/controller/deployment/rolling.go:149-155 | three old sets and an older new one: the round empties the new set |
| `RollingConvergence.RollBackNeverCompletes` | pkg/controller/deployment/rolling.go:34-158 | and that roll back returns to the same fleet every second round, for ever |
| `ProportionalScaling.EstimateSizes` | pkg/controller/deployment/sync.go:373-400 | the loop that fills `nameToSize` and settles the leftover on the first set |
| `ProportionalScaling.SharesAreFair` | pkg/controller/deployment/util/deployment_util.go:419-461 | scaling is proportional, both ways: a set reached before the amount is used up is given the share of the new total that it had of the recorded one, to the nearest pod, or what is left if that is less; one reached later keeps its size; and the first differs from its share only by the leftover |
| `ProportionalScaling.DistributeWrites` | pkg/controller/deployment/sync.go:354-408 | the proportional branch writes every active set the size settled for it, and both annotations |
| `ScalingBranches.OnlyOneIsScaled` | pkg/controller/deployment/util/deployment_util.go:306-327 | without two active sets only one is scaled, and to the whole size: the active one, else the new one, else a newest old one |
| `ScalingBranches.SaturatedNewIsLeft` | pkg/controller/deployment/sync.go:302-311 | a new set that has this size, was last scaled at it and is all available is all that is left |
| `ScalingBranches.OthersAreShared` | pkg/controller/deployment/sync.go:313-408 | with two active sets and no such new one, all active sets are written their settled shares |
| `ScalingBranches.RefusedStays` | pkg/controller/deployment/sync.go:291-408 | a set whose patch is refused is the same after `scale`, whichever way it goes |
| `ScalingBranches.UnfailedIsComplete` | pkg/controller/deployment/sync.go:291-408 | `scale` without an error has done all that it does without refusals |
| `ProportionalScaling.SizesAccount` | pkg/controller/deployment/sync.go:373-388 | the running count never passes the amount to add, in either direction, and accounts for every pod |
| `ProportionalScaling.SizesNotNegative` | pkg/controller/deployment/util/deployment_util.go:419-461 | no estimate is negative while the products fit into 32 bits |
| `ProportionalScaling.SettledConserves` | pkg/controller/deployment/sync.go:391-400 | the sizes sum to the size asked for if and only if the largest set's estimate absorbs the leftover; otherwise to more |
| `ProportionalScaling.DistributeConserves` | pkg/controller/deployment/sync.go:354-408 | the proportional branch conserves size when growing or emptying, and else exactly under that condition |
| `ProportionalScaling.CleanedEffect` | pkg/controller/deployment/sync.go:342-352 | what is cleaned up first never brings the total below the size asked for |
| `ProportionalScaling.ScaleConserves` | pkg/controller/deployment/sync.go:291-408 | `scale` leaves exactly the size asked for when it grows or empties the deployment, and never less |
| `ProportionalScaling.ShrinkConservesIff` | pkg/controller/deployment/sync.go:291-408 | when shrinking over several active sets it is exact if and only if the largest estimate absorbs the leftover |
| `ProportionalScaling.RoundingLosesConservation` | pkg/controller/deployment/sync.go:291-408 | a deployment of eight in four sets of two, scaled to two, is left with three pods, whatever the names and ages |
| `ProportionalScaling.OverflowGivesNegativeSize` | pkg/controller/deployment/util/deployment_util.go:419-461 | in the first band beyond 32 bits the share, and when growing the estimate, is negative exactly when the wrapped product is at least half the recorded total below zero |
| `ProportionalScaling.FiftyThousandOverflow` | pkg/controller/deployment/util/deployment_util.go:441-461 | a set of 50000 pods that are all of the deployment is such a one |
| `ProportionalScaling.LeftoverGoesToLargest` | pkg/controller/deployment/sync.go:354-367 | in both directions the leftover goes to a set none is larger than |
| `ScalingBranches.LargestFirst` | pkg/controller/deployment/util/deployment_util.go:888-913 | the shares are given to larger sets before smaller ones, and among equals to newer ones first when growing and to older ones first when shrinking |
| `BatchRelease.NewStatus.SignalRestartAll` | pkg/controller/batchrelease/batchrelease_status.go:221-225 | everything starts over with an empty status |
| `BatchRelease.NewStatus.SignalRecalculate` | pkg/controller/batchrelease/batchrelease_status.go:231-250 | a changed plan resumes at its partition or, under another rollout id, at batch 0 |
| `BatchRelease.NewStatus.SyncStatusBeforeExecuting` | pkg/controller/batchrelease/batchrelease_status.go:34-148 | the special cases in their order, and that a round goes on only with an unchanged status |
| `BatchRelease.NewStatus.ProgressBatches` | pkg/controller/batchrelease/batchrelease_executor.go:140-198 | one workload call per round, and the batch state after it |
| `BatchRelease.NewStatus.ExecuteBatchReleasePlan` | pkg/controller/batchrelease/batchrelease_executor.go:96-137 | the phases, with the call each makes |
| `BatchRelease.RunRound` | pkg/controller/batchrelease/batchrelease_executor.go:75-94 | one round of the executor gives the status and the calls of `Do` |
| `BatchReleaseRuns.WorksOnObservedPlan` | pkg/controller/batchrelease/batchrelease_status.go:53-122 | work is done only on a status that has taken in the plan now in the spec, and on a batch of it |
| `BatchReleaseRuns.RunKeepsHonest` | pkg/controller/batchrelease/batchrelease_executor.go:140-198 | in every run the batch state claims no more than the calls made support |
| `BatchReleaseRuns.ReadyIsHonest` | pkg/controller/batchrelease/batchrelease_executor.go:140-198 | Ready with the hash of the plan now in the spec means: the last upgrade was for that plan and batch, succeeded and was then found ready, under any edits at any time |
| `BatchReleaseRuns.CallsAreSafe` | pkg/controller/batchrelease/batchrelease_status.go:53-70 | no workload call is for a batch that its plan does not have or its partition does not allow, if plans have batches and no negative partition |
| `BatchReleaseRuns.DoKeepsPartition` | pkg/controller/batchrelease/batchrelease_executor.go:307-322 | the batch never passes the partition of the plan taken in, whatever the plans |
| `BatchReleaseRuns.RecalculationInRange` | pkg/controller/batchrelease/batchrelease_status.go:231-250 | a changed plan is taken in with a batch that exists if and only if it has batches and its partition, where used, is not negative |
| `BatchReleaseRuns.ChangedPlanResumes` | pkg/controller/batchrelease/batchrelease_status.go:231-250 | a changed plan resumes at its partition, or at the last batch if that is beyond the list, and under another rollout id at batch 0; the batch is upgraded anew and no call is made in that round |
| `BatchReleaseRuns.BatchesNeverGoBack` | pkg/controller/batchrelease/batchrelease_status.go:231-250 | under one rollout id, with as many batches and a partition that only grows, no upgrade is for an earlier batch than the one before it, in every run |
| `BatchReleaseRuns.PreparesAgainExactlyWhen` | pkg/controller/batchrelease/batchrelease_status.go:113-124 | work in progress is prepared again exactly when its batch is beyond the list, or a roll back in batches, not prepared before, has the stable revision as the one to release |
| `BatchReleaseRuns.StartsFromNothing` | pkg/controller/batchrelease/batchrelease_status.go:221-267 | a new release, and one that lost its batch, is taken in with nothing of what was known before |
| `BatchReleaseRuns.RollbackWaitsForItsRevision` | pkg/controller/batchrelease/batchrelease_status.go:113-124 | until then a roll back in batches makes no call |
| `BatchReleaseRuns.PreparingOnlyInitializes` | pkg/controller/batchrelease/batchrelease_executor.go:103-117 | preparing takes no notice of the size or template of the workload, leaves the batch as it is, and ends exactly with a successful initialization, whose baseline is in the status |
| `BatchReleaseRuns.StatusReports` | pkg/controller/batchrelease/batchrelease_status.go:150-160 | the counts of a workload that was read, and the rollout id of the release, are in the status after every round |
| `BatchReleaseRuns.PreparedAndFinalized` | pkg/controller/batchrelease/batchrelease_executor.go:96-137 | in every run no batch is upgraded or checked unless the last initialization succeeded, and a completed release has a successful finalizing call as its last |
| `BatchReleaseRuns.EmptyPlanIsUnsafe` | pkg/controller/batchrelease/batchrelease_status.go:177-179 | without batches the workload is upgraded to batch -1 |
| `BatchReleaseRuns.UnsettledWorkloadIsNotTouched` | pkg/controller/batchrelease/batchrelease_status.go:93-111 | no batch is upgraded or checked on a workload that lags behind, changed its template or its size |
| `BatchReleaseRuns.ScalingRestartsBatch` | pkg/controller/batchrelease/batchrelease_status.go:93-99 | a change of size restarts the batch and is taken in, so that the event is not lost |
| `BatchReleaseRuns.EndingIsFinal` | pkg/controller/batchrelease/batchrelease_executor.go:123-134 | Finalizing leads only to Completed, Completed to nothing, and only finalizing calls are made from then on |
| `BatchReleaseRuns.EndsExactlyWhen` | pkg/controller/batchrelease/batchrelease_status.go:163-191 | a release starts to end exactly when it is deleted, has no partition any more, or its workload is gone; without a call in that round |
| `BatchReleaseRuns.EndingCompletes` | pkg/controller/batchrelease/batchrelease_executor.go:123-134 | and completes within two rounds if finalizing succeeds |
| `BatchReleaseRuns.RoundAdvances` | pkg/controller/batchrelease/batchrelease_executor.go:96-198 | with a plan at rest and succeeding calls every round lowers a measure that is zero exactly at the partition, ready |
| `BatchReleaseRuns.WorkReachesPartition` | pkg/controller/batchrelease/batchrelease_executor.go:96-198 | so work reaches the partition and stays there |
| `BatchReleaseRuns.OverlongPartitionNeverRests` | pkg/controller/batchrelease/batchrelease_executor.go:307-322 | with a partition at or beyond the number of batches every round changes the status |
| `RolloutController.ListSteps` | pkg/controller/rollout/rollout_progressing.go:541-556 | the steps to look at, the current one first |
| `RolloutController.RecalculateCanaryStep` | pkg/controller/rollout/rollout_progressing.go:525-569 | the loop stops at the first step that covers what is released |
| `RolloutController.ReleaseManager.DoStepJump` | pkg/controller/rollout/rollout_status.go:405-436 | jumps exactly on a next index that is a step and not the following one |
| `RolloutController.ReleaseManager.DoCanaryUpgrade` | pkg/controller/rollout/rollout_canary.go:245-276 | creates or updates the BatchRelease, or compares what it reports |
| `RolloutController.ReleaseManager.RunState` | pkg/controller/rollout/rollout_canary.go:94-240 | the states of a step; a failed call stores nothing |
| `RolloutController.ReleaseManager.RunRound` | pkg/controller/rollout/rollout_canary.go:46-243 | one round of a step, with the rollout id handed to the BatchRelease first |
| `RolloutController.ReleaseManager.HandleRolloutPlanChanged` | pkg/controller/rollout/rollout_progressing.go:303-333 | resumes a changed plan, by finishing the step or by a jump |
| `RolloutController.ReleaseManager.DoProgressingInRolling` | pkg/controller/rollout/rollout_progressing.go:203-234 | the five special cases in their order before the normal round |
| `RolloutRuns.ResumesAtCoveringStep` | pkg/controller/rollout/rollout_progressing.go:525-569 | a changed plan resumes at the current step if it covers what is released, else at the first step that does, else at the last one visited |
| `RolloutRuns.SameSizeResumesAtSameStep` | pkg/controller/rollout/rollout_progressing.go:546-550 | a change of traffic only resumes at the same step |
| `RolloutRuns.ChangedPlanIndex` | pkg/controller/rollout/rollout_progressing.go:303-333 | exactly when the index is on a step after a changed plan, and that the next round repairs it otherwise |
| `RolloutRuns.IndexFollowsPlan` | pkg/controller/rollout/rollout_progressing.go:203-333 | unless the next index is patched, the index is on a step after every plan change and no round indexes out of range, in every run with any edits of the step list |
| `RolloutRuns.IndexLeftBeyondList` | pkg/controller/rollout/rollout_progressing.go:303-322 | a run from the start with a patched next index and a shortened list: the index is 3 of 1, and another patch makes the next round index out of range |
| `RolloutRuns.RoundMovesIndex` | pkg/controller/rollout/rollout_status.go:405-436 | the index moves only by a legal jump or by one from a ready step; a bad next index never moves it and stays |
| `RolloutRuns.StatesWaitTheirTurn` | pkg/controller/rollout/rollout_canary.go:94-240 | each state is reached only from the one before it and only on what it waits for: patched service, reported batch, routed traffic or no stable pods to route to, ended pause |
| `RolloutRuns.NoPodsBeforePatch` | pkg/controller/rollout/rollout_canary.go:94-160 | the first routed step writes its release only after the stable service was patched as due; and one that leaves no stable pods only after it was restored |
| `RolloutRuns.UpgradeLeadsToRouting` | pkg/controller/rollout/rollout_canary.go:112-176 | a step leaves its upgrade for its traffic routing exactly when its size leaves stable pods, or the new pods come beside them, and otherwise for its analysis, with the stable service restored before |
| `RolloutRuns.AnalysisMeansRouted` | pkg/controller/rollout/rollout_canary.go:162-193 | in every run with any edits, patches and approvals, a rollout that analyses a step or pauses after it has routed the traffic of that step in some round, or left no stable pods |
| `RolloutRuns.PlanWritten` | pkg/controller/rollout/rollout_canary.go:390-426 | every plan written has the size of step `i + 1` as batch `i`, the step's own batch as partition, the rollout id of the workload, and is for a roll back exactly when it is one in batches |
| `RolloutRuns.PausedStandsStill` | pkg/controller/rollout/rollout_progressing.go:203-240 | a paused rollout keeps its step and writes nothing, but for a direct roll back |
| `RolloutChanges.PlanChangesExactlyWhen` | pkg/controller/rollout/rollout_status.go:164-190 | an edit changes the plan exactly when it changes the style, the settings, the number of steps, or the size or traffic of one; not its pauses |
| `RolloutChanges.JumpLands` | pkg/controller/rollout/rollout_status.go:405-436 | a next index that is a step and not the following one is jumped to at once; the step routes its traffic if there are just as many updated pods as it asks for, and begins otherwise |
| `RolloutChanges.ChangeLands` | pkg/controller/rollout/rollout_progressing.go:303-333 | a changed plan is taken in without a write; the step to resume at is come to by finishing the current one, by going on with it, or by such a jump |
| `RolloutChanges.ChangePanicsExactlyWhen` | pkg/controller/rollout/rollout_progressing.go:525-540 | a changed plan panics exactly on a release without a partition or with one that is none of its batches |
| `RolloutChanges.WritesOnlyForTakenIn` | pkg/controller/rollout/rollout_progressing.go:203-234 | a round writes only while rolling and not paused, for steps taken in as they are, and for the revision the rollout is at |
| `RolloutChanges.RevisionBegins` | pkg/controller/rollout/rollout_progressing.go:283-301 | another revision begins at the first step, as a new rollout or a roll back in batches, or cancels the rollout, as a direct roll back |
| `RolloutChanges.StartsAnewExactlyWhen` | pkg/controller/rollout/rollout_progressing.go:252-281 | a rollout starts anew exactly for yet another revision that is no roll back, once it was reset, not paused and not in blue-green style |
| `RolloutChanges.NewRevisionWaits` | pkg/controller/rollout/rollout_progressing.go:252-281 | until then it stays as it is, and a failed reset is an error |
| `RolloutChanges.CancelsExactlyWhen` | pkg/controller/rollout/rollout_progressing.go:283-289 | a rollout is cancelled exactly by a direct roll back to a revision it is not at, paused or not, and keeps its step |
| `RolloutChanges.RollBackStartsOver` | pkg/controller/rollout/rollout_progressing.go:291-301 | a roll back in batches starts it over from its first step |
| `RolloutChanges.SameRevisionGoesOn` | pkg/controller/rollout/rollout_progressing.go:203-234 | at the revision of the workload it goes on with its steps while they are those taken in, also in a roll back, and is finalised when all are done |
| `RolloutChanges.NewRolloutBegins` | pkg/controller/rollout/rollout_progressing.go:71-110 | a new rollout begins at its first step, with nothing updated, when its initialization is done |
| `RolloutChanges.PausedGoesOn` | pkg/controller/rollout/rollout_progressing.go:144-149 | a paused rollout goes on where it was |
| `RolloutChanges.IDFollowsRevision` | pkg/controller/rollout/rollout_status.go:94-101 | the rollout id follows the workload while that has the revision the rollout is at |
| `RolloutChanges.IDHandedOverFirst` | pkg/controller/rollout/rollout_canary.go:429-450 | a release under another rollout id is given the rollout's before anything else is written, or the round ends in an error; one under the same id is not |
| `RolloutChanges.BeginsExactlyWhen` | pkg/controller/rollout/rollout_canary.go:94-160 | a step with traffic goes on to its upgrade exactly when the stable service was restored, where no stable pods will be left, and patched, in the first step with a canary service; it waits for nothing else |
| `RolloutChanges.UpgradeWrites` | pkg/controller/rollout/rollout_releaseManager.go:151-184 | an upgrade writes exactly when the release is missing, has another plan or is not for the same roll back; and a refused write ends in an error |
| `RolloutChanges.PauseEndsExactlyWhen` | pkg/controller/rollout/rollout_canary.go:283-313 | a pause ends exactly after its duration, or in the last step of a canary that has all pods |
| `RolloutChanges.UnroutedCleansUpFirst` | pkg/controller/rollout/rollout_canary.go:76-91 | a step without traffic waits for the clean-up of earlier traffic |
| `RolloutChanges.UnroutedBegins` | pkg/controller/rollout/rollout_canary.go:94-102 | and begins at once after it, in canary style with a round of its own |
| `RolloutRuns.IndexStaysOnAStep` | pkg/util/rollout_utils.go:177-186 | with a constant number of steps the index is on a step after every run with any patches, edits and rounds, and no round indexes out of range |
| `RolloutProtocol.OnlyReportsPass` | pkg/controller/rollout/rollout_canary.go:245-276 | a step is taken for upgraded only on a BatchRelease that reports its batch |
| `RolloutProtocol.UpgradedMeansVerified` | pkg/controller/rollout/rollout_releaseManager.go:151-184 | whenever the rollout goes on from an upgrade, the version of the BatchRelease it acted on, current or stale, was at exactly this step's batch, ready and verified under exactly this step's plan |
| `RolloutProtocol.UpgradeSkippedExactlyWhen` | pkg/controller/rollout/rollout_status.go:405-436 | exactly when a round leaves an upgrade without a verified batch: by a jump to a step with as many pods as are updated, or by a changed plan that resumes there or at the next index |
| `RolloutProtocol.TrafficRoutedUnverified` | pkg/controller/rollout/rollout_status.go:415-430 | a run from the start that routes traffic to a step although no pod is ready, no batch verified and no workload call made |
| `RolloutProtocol.EveryPassIsVerified` | pkg/controller/rollout/rollout_canary.go:162-179 | in every run of both controllers with jumps, edits, roll backs and stale reads, every step ever taken for upgraded was verified |
| `RolloutProtocol.StepsPassInOrder` | pkg/controller/rollout/rollout_canary.go:220-238 | a rollout that nobody interferes with passes its steps one by one, and all of them before its finalising |
| `RolloutProgress.ExecutorDelivers` | pkg/controller/batchrelease/batchrelease_executor.go:75-198 | after enough rounds of the executor the BatchRelease reports the batch its plan asks for |
| `RolloutProgress.CycleProgress` | pkg/controller/rollout/rollout_canary.go:46-243 | after that, every round of the rollout lowers the number of rounds ahead |
| `RolloutProgress.RolloutCompletes` | pkg/controller/rollout/rollout_canary.go:46-276 | left alone, rollout and executor bring a rollout to its finalising within eight rounds a step and one to start |
| `RolloutProgress.FreshRolloutDelivers` | pkg/controller/rollout/rollout_progressing.go:55-137 | from the start they do so with every step verified, in their order |
| `LabelPatch.FilterPods` | pkg/controller/batchrelease/labelpatch/filter.go:50-138 | the two filters: three lists, a counter, and what is kept |
| `LabelPatch.CalculatePlannedStepIncrements` | pkg/controller/batchrelease/labelpatch/patcher.go:215-228 | two loops turn batch sizes into increments |
| `LabelPatch.ScanPods` | pkg/controller/batchrelease/labelpatch/patcher.go:71-163 | the plan less the valid ids found, and the pods without one; a failed look-up ends the call |
| `LabelPatch.PatchPodBatchLabel` | pkg/controller/batchrelease/labelpatch/patcher.go:64-194 | the patches made, from the last batch and the end of the list, up to the first one refused |
| `LabelPatchProperties.IncrementsTelescope` | pkg/controller/batchrelease/labelpatch/patcher.go:215-228 | the increments add up to the clamped size of the current batch |
| `LabelPatchProperties.BatchPlans` | pkg/controller/batchrelease/labelpatch/patcher.go:230-241 | a batch plans its number held within 0 and the replicas, or the least number that makes up its percentage |
| `LabelPatchProperties.NextRunResumes` | pkg/controller/batchrelease/labelpatch/patcher.go:142-194 | the run after a refused patch makes exactly the patches that were left; after a complete run there are none |
| `LabelPatchProperties.CountsAsPlanned` | pkg/controller/batchrelease/labelpatch/patcher.go:166-194 | at every moment no batch exceeds the larger of its planned size and what it had; with enough pods each ends at that |
| `LabelPatchProperties.OnlyLoosePodsOnce` | pkg/controller/batchrelease/labelpatch/patcher.go:142-194 | no pod is patched twice, and none with a valid id, terminating or not updated is touched |
| `LabelPatchProperties.UnknownOwnerEndsRun` | pkg/controller/batchrelease/labelpatch/patcher.go:71-116 | exactly one kind of listed pod ends a run before its first patch: not terminating, without a revision label and with an owner that yields no hash |
| `LabelPatchProperties.OfRevision` | pkg/util/pod_utils.go:72-83 | a pod is of a revision that ends with one of its two hashes, if not empty; for the patcher also with the hash of its owner where it has no revision label |
| `LabelPatchProperties.CompleteRunSatisfies` | pkg/controller/batchrelease/context/context.go:99-113 | a complete run over enough updated pods satisfies the label check, also when it runs out of pods |
| `LabelPatchProperties.FilterKeepsEnough` | pkg/controller/batchrelease/labelpatch/filter.go:50-138 | both filters keep enough updated pods for the planned labels |
| `LabelPatchProperties.FilterKeeps` | pkg/controller/batchrelease/labelpatch/filter.go:50-138 | a filter keeps everything if no pod is needed; else all terminating pods and all preferred ones of the revision, none of another revision, and of the rest as many as are planned beyond the need |
| `LabelPatchProperties.FilteredRunSatisfies` | pkg/controller/batchrelease/context/context.go:99-113 | filter, patcher and check agree: with as many updated pods as desired and planned no batch is stuck on its labels |
| `LabelPatchProperties.LabelsNeverDecide` | pkg/controller/batchrelease/context/context.go:78-122 | after a complete run a batch is ready if and only if enough pods are updated and ready |
| `LabelPatchProperties.ReadyExactlyWhen` | pkg/controller/batchrelease/context/context.go:78-122 | a batch is ready exactly when as many pods are updated as desired, no more of these are missing than the failure threshold tolerates, at least one is ready if any is desired, and, for a rollout with an id, as many carry it as are planned |
| `LabelPatchProperties.PatchedAreLast` | pkg/controller/batchrelease/labelpatch/patcher.go:166-190 | the pods patched are exactly the last of those without an id, as many as patches are due |
| `LabelPatchProperties.LowPriorityFirstExactlyWhen` | pkg/controller/batchrelease/labelpatch/filter.go:50-84 | exactly when a pod that needs no update is labelled while one that was really updated is not: some but not all of the kept pods without an id are due a patch and both kinds are among them; by place, when nothing needs an update |
| `LabelPatchProperties.LowPriorityFirst` | pkg/controller/batchrelease/labelpatch/filter.go:35-49 | five updated pods and two that need no update, with six labels planned: both of the two are labelled and one of the five is not |
| `Gateway.GetServiceBackendRef` | pkg/trafficrouting/network/gateway/gateway.go:245-253 | the loop finds the first reference to a service |
| `Gateway.SetServiceBackendRef` | pkg/trafficrouting/network/gateway/gateway.go:255-273 | replaces that reference in its place or appends it |
| `Gateway.FilterOutServiceBackendRef` | pkg/trafficrouting/network/gateway/gateway.go:275-288 | removes the first reference and keeps the others in order |
| `Gateway.BuildCanaryWeightHttpRoutes` | pkg/trafficrouting/network/gateway/gateway.go:213-235 | the loop that rewrites rules by weight |
| `Gateway.RestoreHttpRoutes` | pkg/trafficrouting/network/gateway/gateway.go:133-146 | the loop that removes the canary and drops rules left empty |
| `Gateway.FilterMatches` | pkg/trafficrouting/network/gateway/gateway.go:159-164 | matches with a path and without, in their order |
| `Gateway.BuildMatches` | pkg/trafficrouting/network/gateway/gateway.go:192-205 | the two inner loops: every match of the rule extended by every added one |
| `Gateway.BuildCanaryHeaderHttpRoutes` | pkg/trafficrouting/network/gateway/gateway.go:156-211 | the loop that adds canary rules, with path matches on the first only |
| `Gateway.GatewayController.EnsureRoutes` | pkg/trafficrouting/network/gateway/gateway.go:62-96 | the route becomes the desired one, and is verified if it was |
| `Gateway.GatewayController.Finalise` | pkg/trafficrouting/network/gateway/gateway.go:98-127 | the route is restored, and whether that changed it |
| `GatewayProperties.WeightsAddUp` | pkg/trafficrouting/network/gateway/gateway.go:213-242 | stable and canary weights sum to 100 and nothing else of a rule changes |
| `GatewayProperties.LaterWeightWins` | pkg/trafficrouting/network/gateway/gateway.go:213-235 | a later weight replaces an earlier one |
| `GatewayProperties.RestoreUndoesWeight` | pkg/trafficrouting/network/gateway/gateway.go:129-146 | restoring forgets any weight, for all rules |
| `GatewayProperties.NoWeightRestores` | pkg/trafficrouting/network/gateway/gateway.go:129-146 | the weight -1 takes a weight back |
| `GatewayProperties.HeadersUndoneExactlyWhen` | pkg/trafficrouting/network/gateway/gateway.go:156-211 | a header rewrite can be undone if and only if no canary reference stands beside another one |
| `GatewayProperties.LaterHeadersWin` | pkg/trafficrouting/network/gateway/gateway.go:156-211 | later headers replace earlier ones |
| `GatewayProperties.SecondCallVerifies` | pkg/trafficrouting/network/gateway/gateway.go:62-96 | a second call finds the route as desired |
| `GatewayProperties.RestoreTwiceExactlyWhen` | pkg/trafficrouting/network/gateway/gateway.go:98-127 | restoring twice is restoring once if and only if no rule has two references to the canary service |
| `GatewayProperties.SecondCanaryStays` | pkg/trafficrouting/network/gateway/gateway.go:275-288 | with two canary references in a rule the second restoring changes the route again |
| `GatewayProperties.RestoreUndoesRun` | pkg/trafficrouting/network/gateway/gateway.go:129-235 | after any run of rewrites with headers before weights, restoring gives what it gave at the start |
| `GatewayProperties.HeadersAfterWeightLose` | pkg/trafficrouting/network/gateway/gateway.go:167-172 | headers straight after a weight can be undone if and only if no rule has the stable service |
| `GatewayProperties.RestoreGivesOriginal` | pkg/trafficrouting/network/gateway/gateway.go:133-146 | restoring is the identity exactly on rules with a backend, no canary and stable weight 1 |
| `GatewayProperties.TakenAreRight` | pkg/trafficrouting/network/gateway/gateway.go:192-205 | the added matches are those without a path if and only if every match without a path comes before every one with a path |
| `GatewayProperties.PathFirstTakesPath` | pkg/trafficrouting/network/gateway/gateway.go:192-205 | with a path first and a header second the path match is added and the header is not |
| `GatewayRequests.CanaryMatchesMean` | pkg/trafficrouting/network/gateway/gateway.go:192-205 | a canary rule matches a request if and only if the stable rule and some added match do |
| `GatewayRequests.CanariesTakeWanted` | pkg/trafficrouting/network/gateway/gateway.go:156-211 | the canary rules take just the requests that a path match asks for, or that another match asks for and a rule of the stable service takes, and send them to the canary service only |
| `GatewayRequests.PathsOnFirstOnly` | pkg/trafficrouting/network/gateway/gateway.go:178-208 | only the first canary rule has the path matches; every other one has the extended matches of its stable rule |
| `Percentage.ErrorBelowOnePercent` | pkg/controller/batchrelease/control/util.go:111-136 | what is read back misses the number by less than one percent, and is at least 1 unless the batch is "100%" |
| `Percentage.ExactlyWhen` | pkg/controller/batchrelease/control/util.go:117-136 | it is exact if and only if the hundredfold leaves less than 100 over, as always up to 100 pods |
| `Percentage.ReadBackMonotone` | pkg/controller/batchrelease/control/util.go:117-136 | a larger number is never read back smaller |
| `Percentage.OverflowTurnsNegative` | pkg/controller/batchrelease/control/util.go:126 | one beyond the size bound the product wraps and the percentage is negative |
| `Percentage.NinetyEightOfNinetyNine` | pkg/controller/batchrelease/control/util.go:111-116 | 98 of 99 gives 98 percent and reads back as 98 |
| `Expectations.ResourceExpectations.Expect` | pkg/util/expectation/resource_expectations.go:91-108 | inserts a name into the record of its key and action |
| `Expectations.ResourceExpectations.Observe` | pkg/util/expectation/resource_expectations.go:110-131 | removes a name, and the record once all its sets are empty |
| `Expectations.ResourceExpectations.SatisfiedExpectations` | pkg/util/expectation/resource_expectations.go:133-153 | whether something is waited for, and since when it was found so |
| `Expectations.CacheMeansPending` | pkg/util/expectation/resource_expectations.go:91-159 | the cache with its clean-ups means the plain set of what was expected and neither observed nor forgotten |
| `Expectations.SatisfiedMeansNothingPending` | pkg/util/expectation/resource_expectations.go:133-153 | a check is satisfied if and only if nothing is pending for the key |
| `Expectations.TimeoutIsUnbroken` | pkg/util/expectation/resource_expectations.go:133-153 | a timeout counts only an unbroken stretch of waiting, and a satisfied check reports none |
| `DaemonSet.ClassifyPods` | pkg/controller/nativedaemonset/util/nativedaemoset_util.go:230-248 | one loop counts updated pods and lists the others |
| `DaemonSet.CalculateDeletionQuota` | pkg/controller/nativedaemonset/util/nativedaemoset_util.go:252-298 | the loop over the sorted pods counts as `Quota` does |
| `DaemonSet.AnalyzePods` | pkg/controller/nativedaemonset/nativedaemonset_controller.go:274-310 | the pods chosen: a prefix of the sorted outdated ones |
| `DaemonSet.DaemonSetController.SlowStartBatch` | pkg/controller/nativedaemonset/util/nativedaemoset_util.go:186-218 | the deletions asked for are a prefix, each once, and how many succeeded |
| `DaemonSet.DaemonSetController.Reconcile` | pkg/controller/nativedaemonset/nativedaemonset_controller.go:213-358 | a blocked round asks for nothing; another one asks for the chosen pods and expects them, and fails exactly on a refused deletion |
| `DaemonSetProperties.QuotaMeans` | pkg/controller/nativedaemonset/util/nativedaemoset_util.go:252-298 | the quota counts the pods of a prefix that are not terminating, and why it stops there |
| `DaemonSetProperties.ChosenWithinBounds` | pkg/controller/nativedaemonset/nativedaemonset_controller.go:274-310 | at most as many as are not updated, no updated pod, none twice, and at most `maxUnavailable` serving ones less the updated ones that are not ready |
| `DaemonSetProperties.CountsMean` | pkg/controller/nativedaemonset/util/nativedaemoset_util.go:230-248 | the two counts are the number of updated pods and of those among them that are not ready |
| `DaemonSetProperties.ChosenInOrder` | pkg/controller/nativedaemonset/util/nativedaemoset_util.go:108-142 | a pod is chosen only together with all that come before it in the deletion order |
| `DaemonSetProperties.UnreadyGoFirst` | pkg/controller/nativedaemonset/util/nativedaemoset_util.go:108-142 | no serving pod goes while an outdated one that is not ready stays |
| `DaemonSetProperties.PendingCheapNewGoFirst` | pkg/controller/nativedaemonset/util/nativedaemoset_util.go:108-142 | nor does a pod go while an outdated one stays that is pending and it is not, or that, alike in both, costs less to delete or is newer at the same cost |
| `DaemonSetProperties.TerminatingChosenExactlyWhen` | pkg/controller/nativedaemonset/util/nativedaemoset_util.go:265-272 | a terminating pod is chosen, and deleted again, exactly when in the deletion order all pods before the first one fit into the number and the maximum and a later one that is not terminating still does, every terminating pod passed counting as one unavailable |
| `DaemonSetProperties.TerminatingPodDeletedAgain` | pkg/controller/nativedaemonset/util/nativedaemoset_util.go:265-272 | of two outdated pods that are not ready the terminating one is deleted again and the other stays |
| `DaemonSetProperties.SlowStartMeans` | pkg/controller/nativedaemonset/util/nativedaemoset_util.go:186-218 | calls stop short only after a refusal, and number at most the initial portion and twice the successes |
| `DaemonSetProperties.CallsMean` | pkg/controller/nativedaemonset/nativedaemonset_controller.go:312-358 | after a round the key waits for exactly the pods whose deletion was accepted |
| `DaemonSetProperties.RoundsWait` | pkg/controller/nativedaemonset/nativedaemonset_controller.go:236-246 | after any run a round may delete if and only if all accepted deletions were seen, or the wait timed out |
| `Grace.GraceExpectations.Observe` | pkg/util/grace/grace_expectations.go:93-105 | forgets an action, and the key with its last one |
| `Grace.GraceExpectations.SatisfiedExpectations` | pkg/util/grace/grace_expectations.go:107-124 | whether the grace period of the recorded time is over, and what remains |
| `Grace.GraceExpectations.CleanOutdatedItems` | pkg/util/grace/grace_expectations.go:133-149 | two loops remove what is older than the interval |
| `Grace.GraceExpectations.RunWithGraceSeconds` | pkg/util/grace/grace_wrapper.go:36-60 | the answer to the caller and the record kept, for every ending of the wrapped function |
| `Grace.KeptForGrace` | pkg/util/grace/grace_expectations.go:107-149 | the record of a modification survives cleaning until its grace period is over |
| `Grace.NoRetryExactlyAfterGrace` | pkg/util/grace/grace_wrapper.go:36-60 | after any run a call that modifies nothing says "no retry" if and only if the grace period since the last modification is over, and else gives the rest of it |
| `Grace.OtherEndings` | pkg/util/grace/grace_wrapper.go:36-60 | a failure is retried at once and changes nothing; a modification is waited for through the grace period; without one nothing is waited for or remembered |
| `Grace.NoKeyIsEmpty` | pkg/util/grace/grace_expectations.go:93-149 | no key is kept without an action |
| `Grace.WaitsLongEnoughExactlyWhen` | pkg/util/grace/grace_expectations.go:133-162 | the grace period holds in every run if and only if it is at most one nanosecond longer than the cleaner's interval |
| `Finalising.NextTask` | pkg/controller/rollout/rollout_canary.go:452-488 | the next task of the reason's sequence, the first one at the start, the end after the last or an unknown one |
| `Finalising.Finaliser.DoFinalising` | pkg/controller/rollout/rollout_canary.go:323-384 | one task a round; the step moves on only when it was done |
| `Finalising.DoneMeansAllInOrder` | pkg/controller/rollout/rollout_canary.go:323-384 | done is reported only after every task of the sequence was done in order, over any retries, errors and lost status updates |
| `Finalising.StoredStepSkipsBefore` | pkg/controller/rollout/rollout_canary.go:323-384 | from a step stored before, exactly the tasks from there on are done |
| `Finalising.AllDoneOnlyFromFirst` | pkg/controller/rollout/rollout_canary.go:323-384 | at the end of a run from a stored step the whole sequence was done if and only if that step is the first |
| `Finalising.SuccessesEnd` | pkg/controller/rollout/rollout_canary.go:323-384 | the end is reached after one success a task, and from the start after one more, the first task being done twice |
| `Finalising.DoneOnlyAfter` | pkg/controller/rollout/rollout_bluegreen.go:257-324 | at any time a task was done only after all that precede it |
| `Finalising.SafeOrders` | pkg/controller/rollout/rollout_bluegreen.go:411-454 | the orders in the sequences of both managers and all reasons that keep traffic safe |
| `Finalising.TasksComplete` | pkg/controller/rollout/rollout_bluegreen.go:411-454 | every sequence has each of its tasks once, and all of them but waiting; traffic goes to the new version only after a blue-green success |
| `Finalising.UnknownStartsOver` | pkg/controller/rollout/rollout_canary.go:323-384 | a stored step that the manager does not know, or that is none, starts the sequence over |
| `Finalising.RoundOnTask` | pkg/controller/rollout/rollout_canary.go:323-384 | a round on a task does it, and the next one is up, or stays on it; it fails exactly on a failed call |
| `Finalising.CanaryServiceGoesLast` | pkg/controller/rollout/rollout_canary.go:452-488 | the canary service is removed only after traffic was routed to the stable one |
| `Finalising.RollBackRoutesFirst` | pkg/controller/rollout/rollout_canary.go:456-468 | on a roll back the gateway is restored before the workload is resumed or the stable selector dropped |
| `Finalising.DeletedWhileRoutingToNew` | pkg/controller/rollout/rollout_bluegreen.go:411-454 | a rollout deleted in the first task of a blue-green success ends right after it |
| `Finalising.DeletedWhileReleasing` | pkg/controller/rollout/rollout_canary.go:452-488 | a rollout deleted late in a canary roll back ends with the next success, and at any end its services are not restored |

The managers for canary and blue-green releases differ in few branches. `RolloutController`
models both, and the rows above cite the canary file; the blue-green one is
`pkg/controller/rollout/rollout_bluegreen.go`, lines 45 to 247.

## Left out

- Sorting is modelled as insertion sort. The source's sort is not stable, and where
  revisions cannot be parsed its comparison is not transitive.
- 32-bit sums of sizes are unbounded; the two 32-bit products are wrapped explicitly.
- GetScaledValueFromIntOrPercent computes with floating point; here it is exact.
- GetProportion's rounding in floating point is exact rounding to the nearest integer.
- ProportionalScaling.ScaleConserves: for the recorded total positive and the products
  within 32 bits, because the code divides by that total and multiplies in 32 bits.
- ProportionalScaling.SharesAreFair: under the same conditions and for a size that is not
  zero; emptying is exact by DistributeConserves.
- ScalingBranches.OthersAreShared: for old sets with all pods available, as the others are
  cleaned up first, which CleanedEffect is about.
- RollingOrder.HighestRevisionScaledFirst: for sets that all have a revision and over the old
  sets alone; over a shared array the order is by age, as SharedListsOldsIff says.
- RollingProperties.RoundKeepsAvailability: for ReplicaSets whose reported available pods
  do not exceed their size, and which lose unavailable pods first.
- RollingProperties.ReconcileOldsSizes: states that the old sets keep their share, and the
  new set its size, except over an array shared with an old set younger than the new one,
  where both are false; RoundMissesShareExactlyWhen and RoundShrinksNewExactlyWhen say
  exactly when.
- RollingProperties.RoundSizes: makes the same exception for its two lower bounds.
- RollingProperties.RunSizes: makes it too; RunKeepsShare has the share for every run whose
  rounds do not miss it.
- OldShare.OldPodStaysExactlyWhen: its condition, and that of RoundMissesShareExactlyWhen,
  is on the fleet that the clean-up phase of the round leaves.
- RollingConvergence.RollingConverges: with every set reporting all its pods available
  between rounds, as otherwise nothing forces an end, and with no round misled by a shared
  array. Which runs with misled rounds come to the goal all the same is not stated; one of
  stuck rounds never does.
- BatchReleaseRuns.CallsAreSafe: for plans with batches and no negative partition;
  RecalculationInRange says exactly when a plan is taken in safely.
- BatchReleaseRuns.BatchesNeverGoBack: for partitions that are batches of their plans and
  never decrease, under one rollout id, because a smaller partition and another id mean an
  earlier batch.
- RolloutProtocol.UpgradedMeansVerified: for rounds without a jump or a changed plan, as it
  is false of those; UpgradeSkippedExactlyWhen says exactly which of them skip it.
- RolloutRuns.IndexStaysOnAStep: for releases read with a batch at their partition. On
  another one `recalculateCanaryStep` dereferences nil or indexes out of range, which the
  model has as a panic.
- RolloutProgress.RolloutCompletes: for steps with a pause duration, because the others
  wait for a user, and for calls that succeed and a workload at rest.
- LabelPatchProperties.FilterKeepsEnough: the filter for ordered updates needs all ordinals
  from the partition on to be updated; it looks at ordinals and not at the desired number.
- GatewayRequests.CanariesTakeWanted: for matches with a path after those without, which
  TakenAreRight says is needed, and with no other fields than path, headers and parameters.
- GatewayRequests.CanaryMatchesMean: a request satisfies all headers of a match; that the
  Gateway API ignores a second header of the same name is not modelled.
- DaemonSetProperties.ChosenWithinBounds: bounds the serving pods deleted, as old pods that
  are not ready, and terminating ones later in the scan, are not counted by the code.
- DaemonSet.DaemonSetController.SlowStartBatch: calls of one portion run one after the
  other; concurrency within a portion is not modelled.
- LabelPatch.PatchPodBatchLabel: does not write the computed revision hash to pods, which
  only saves computing it again; a pod counts as updated by either.
- LabelPatch.FilterPods: does not sort the pods by ordinal first; the results hold for every
  order of the list. The sort parses the name from its hyphen on, so that its ordinals are
  negative and the order descends.
- The status of a BatchRelease for an unsupported workload, which stays as it is.
- A conflict between a stale update of the BatchRelease and a newer version is allowed to
  succeed, so that the protocol has more runs than the real one, and none less.
- Writes of the finalising step by a continuous release; StoredStepSkipsBefore says what a
  run makes of a step stored earlier.
- Conditions, messages, events, metrics and timestamps, except the times of grace periods
  and timeouts.
- The control planes behind the workload calls, ingress and custom networks, and their Lua
  scripts: calls that succeed or fail.
- Pod template comparison and hashing, conversion between API versions, rollout history,
  webhooks: field copies and abstract equality, which would add only easy members.
