# k8s-rollout-restart: verified model

This project models the control logic of a tool that restarts Kubernetes workloads under a strict rule: plan
everything first, then mutate, and stop everything at the first failure. Other programs (operators, administrators,
other runs of the tool) change the same objects at the same time, so the tool works with conditional patches and
re-reads. The proofs cover the bounded launcher under every interleaving, the PostgreSQL marker protocol and the node
cordon protocol against arbitrary concurrent writers and lost answers, the waiting loops, the selection of targets, the
shell quoting of the hints, and the JSON documents that are sent.

## How it is modelled

| file | subject |
|---|---|
| `Common.dfy` | API answers and what a failed mutation may have done |
| `Launcher.dfy` | the launcher as a step relation: dispatcher, workers, tokens, stop flag; all claims are for every schedule |
| `RunStop.dfy` | the stop signal as a shared object and the launcher loop under an arbitrary scheduler |
| `Planning.dfy` | concurrent selection over namespaces equals the sequential one |
| `Maintenance.dfy` | one resource type, and the whole run |
| `PodStore.dfy`, `Marking.dfy`, `Cleanup.dfy`, `Rotation.dfy`, `Postgresql.dfy` | the PostgreSQL marker protocol |
| `Cordon.dfy` | the node cordon protocol |
| `Rollouts.dfy` | Deployment and StatefulSet rollouts |
| `Kafka.dfy` | Strimzi Kafka clusters |
| `Restarts.dfy` | the restarts of all kinds as jobs of the launcher |
| `Selection.dfy` | which Deployments are restarted |
| `Quoting.dfy` | `ShellQuote` and the kubectl hints against a POSIX shell lexer |
| `Patches.dfy` | JSON Pointer, JSON Patch and merge patch, and the patches the tool sends |

The API server of the marker and cordon protocols is a store of object instances with unique UIDs and versions from one
growing counter. Before each request an arbitrary list of actions of other writers takes place, then the request is
executed atomically or not, and its answer arrives or is lost. A context expires at an arbitrary step; from then on it
stays expired. Every event (read, patch, wait for a tick, trip of the stop, launch) is appended to a log, and ordering claims
are claims about the log. The log of a restart is replayed against the environment: every request and every wait takes one
turn (and in `Rollouts` and `Kafka` every look at the context), so an answer cannot be made up and time cannot be lost. The
environment, the answers and the moment of expiry are universally quantified in every contract.

Assumptions:

- an ambiguous patch has taken effect or not by the time the call returns; it does not take effect later;
- this run's ID is fresh when a cluster restart or a cordon begins, and nobody else writes it to the pods of that cluster or
  to that node; the run's own concurrent work on other clusters and other nodes is part of the environment;
- UIDs are never reused, and the labels by which pods are listed do not change;
- a 4xx answer other than 408 means that the mutation was not executed (that is what the program relies on too);
- JSON Patch follows sections 4.1, 4.2, 4.6 and 5 of RFC 6902, JSON Pointer sections 3 and 4 of RFC 6901, merge patch
  section 2 of RFC 7396, and a resourceVersion inside a merge patch is the server's 409 rule;
- the shell lexer follows sections 2.2 and 2.3 of the Shell Command Language in POSIX.1-2017.

## What the proofs found

- The node cordon decides whether a failed patch may have been applied by `isUncertainErr`, the restart paths by
  `mutationDefinitelyFailed`. `Common.ClassifiersDisagree` gives the exact set of answers on which the two disagree; a 408
  without a timeout reason is one. The consequence is `Cordon.UnrecordedCordon`: a cordon that took effect is missing from
  the record exactly if its patch was answered with an error that only the restart paths would take as possibly applied, or
  if the re-read after an uncertain answer did not confirm it. The call returns an error then. `Cordon.OverlookedCordon` runs
  the program under every script in which the patch is executed and answered like that, a 408 for example: it ends without a
  second look at the node and without a record.
- The cleanup can report a pod as "never marked" although it removed the marker. This is so exactly if a removal took effect,
  its answer was lost, and the next listing that says anything about the instance shows it without both annotations
  (`Cleanup.NeverMarkedIsFalse`; `Cleanup.LostRemoval` runs the program under the scripts in which that happens to its one
  pod). Without an ambiguous answer to a removal the word is true (`Cleanup.NeverMarkedIsTrue`). The report is harmless, but the words are not what happened.
- A PostgreSQL restart returns an error exactly if it tripped the stop itself. A Kafka restart trips it exactly if a patch
  failed or the wait had an API error in time (`Kafka.TripsExactly`). So it can fail without tripping: when it gives up before
  the first patch (`Kafka.GivingUpTripsNothing`, for example `Kafka.FailedListing`), and once it patches exactly if every patch
  was acknowledged and the wait ended by timeout or interruption without an API error in time (`Kafka.ErrorWithoutTrip`). The
  launcher trips the stop after the call then.
- `waitForClusterRestart` accepts a complete poll without looking at its context again: whether the context expired between the
  last answer of that poll and its end does not matter for success (`Kafka.SuccessByTheClock`). `Kafka.LateSuccess` runs a wait
  whose context expires right after the last of four answers in time, and which succeeds. `waitForRollouts` looks, and does
  not (`Rollouts.SuccessMeans`).
- "Filtering out a primary never causes its canary target to be restarted" holds unless the target is a primary itself
  (`Selection.TargetOfPrimaryNeverSelected`): then it is restarted although its own primary exists
  (`Selection.PrimaryWithPrimaryIsSelected`).

## Model

| member | source | states |
|---|---|---|
| Common.ClassifiersDisagree | pkg/operations/cluster.go:474-481 | exactly which answers to a failed mutation the two classifiers judge differently, and which they judge alike |
| Launcher.StepKeepsInv | pkg/operations/helpers.go:233-264 | every atomic step of dispatcher, worker or outsider keeps the launcher invariant: tokens are accounted for, slots hold what they should, failures are flagged before their token is released |
| Launcher.EveryInterleaving | pkg/operations/helpers.go:233-264 | in every interleaving at most max(limit,1) calls are in flight, the started jobs are a prefix and ran once, and what is returned is complete: own results for the prefix, "not started" and its count for the rest |
| Launcher.StopBeforeRelease | pkg/operations/helpers.go:231-260 | once the stop flag is up, at most the one job whose check had already read false still starts, whatever happens afterwards |
| Launcher.NoSlotReuse | pkg/operations/helpers.go:231-260 | if all slots were held when the flag went up, nothing starts any more |
| Launcher.FailureHoldsSlot | pkg/operations/helpers.go:252-260 | a failed job still holds its slot unless the flag is already up |
| Launcher.FirstCauseWins | pkg/operations/helpers.go:176-189 | in every interleaving the first recorded cause stays and a raised flag is never lowered |
| Launcher.LimitOneStopsAtFailure | pkg/operations/helpers.go:223-264 | with limit 1 a failed job is the last one ever launched |
| Launcher.FreeTokenIsTaken | pkg/operations/helpers.go:239-242 | the dispatcher waits for a token only while max(limit,1) jobs hold one |
| Launcher.LimitIsReached | pkg/operations/helpers.go:233-264 | with the stop not tripped there are interleavings in which any number of jobs up to max(limit,1) and the number of jobs run at the same time |
| Launcher.ErrorIffStopped | pkg/operations/helpers.go:233-289 | starting untripped and with nobody else tripping, there is an error exactly if the stop is tripped on return, exactly if some started job failed; the recorded cause is the error of such a job |
| Launcher.TrippedLaunchesNothing | pkg/operations/helpers.go:241-251 | a stop tripped beforehand means no launch and every job reported as not started |
| Launcher.PlainLoopIsScheduleIndependent | pkg/operations/helpers.go:139-155 | the plain bounded loop visits every index exactly once with results independent of the interleaving |
| Launcher.StepMakesProgress | pkg/operations/helpers.go:233-264 | every enabled internal step decreases a measure, so no run is infinite |
| Launcher.NoDeadlock | pkg/operations/helpers.go:233-264 | until it has returned, some internal step of the launcher is always enabled |
| RunStops.RunStop.constructor | pkg/operations/helpers.go:173 | a new signal is untripped and has no cause |
| RunStops.RunStop.Trip | pkg/operations/helpers.go:176-186 | the first cause wins and the signal stays tripped |
| RunStops.OrNew | pkg/operations/helpers.go:202-207 | a missing signal is replaced by a fresh untripped one, a given one is kept |
| RunStops.TripOnSelectionErrors | pkg/operations/helpers.go:215-221 | tripped afterwards exactly if it was tripped or there are selection errors |
| RunStops.RunRolloutJobs | pkg/operations/helpers.go:233-264 | the loop, under any scheduler, terminates in a final state of the step relation and returns a complete result |
| Planning.Collect | pkg/operations/kafka.go:706-733 | collecting the slots in namespace order yields the left-to-right plan of their contents |
| Planning.PlanIsScheduleIndependent | pkg/operations/deployments.go:271-293 | whatever the interleaving, every namespace is selected once, at most max(limit,1) at a time, and every slot holds its own namespace's selection |
| Planning.PlanAll | pkg/operations/kafka.go:690-734 | for every schedule targets and errors equal the sequential result: each failed selection has its own error at its place, each other one its targets, and there is nothing else |
| Planning.SequentialGathers | pkg/operations/kafka.go:706-733 | collecting left to right puts the error or the targets of every namespace where the counts of the namespaces before it say |
| Maintenance.CollectJobErrors | pkg/operations/deployments.go:433-443 | each failed and each not-started job is reported once, nothing else is |
| Maintenance.RestartPlanned | pkg/operations/deployments.go:407-457 | what is handed back is the launch order, the first jobs in order; a plan with selection errors or an already tripped stop launches nothing; no error exactly if everything planned succeeded; alone on a fresh stop, an error exactly if the stop is tripped |
| Maintenance.NoteLaunches | pkg/operations/helpers.go:238-264 | the launches handed back by the launcher are appended to the log of mutations one by one |
| Maintenance.NotStartedPhase | cmd/root.go:590-603 | every target of a skipped phase is reported once, or the phase once as interrupted |
| Maintenance.ExactlyOneFate | cmd/root.go:609-617 | a planned target of an uninterrupted phase has exactly one of: succeeded, reported failed, reported not started |
| Maintenance.PlanningFailedRun | cmd/root.go:623-632 | after a planning error every planned target is reported as not started, or its phase as interrupted exactly if its turn came after expiry, and nothing as failed |
| Maintenance.RunPhase | cmd/root.go:642-653 | a phase after a failure leaves the stop and the cluster alone; a healthy one whose turn comes before the context expires is launched completely, unless one of its launched targets fails or somebody else trips the stop; it is reported as interrupted exactly if the context had expired; a clean healthy phase means all its targets succeeded |
| Maintenance.RunMaintenance | cmd/root.go:618-656 | conservation over the whole run; the collected log of mutations is the cordon, if any, and then exactly the launches of the phases in order; a planning error leaves it empty; nothing is launched after any earlier report; a planned target is left out only after the cordon failed, after the context expired, or after a launched target of its phase or an earlier one failed; exactly the phases whose turn comes after expiry are reported as interrupted; no error exactly if planning, cordon and report worked, every planned target succeeded and nothing was interrupted; a planning error or a failed cordon is reported exactly if there was one, a failed report only if nothing else failed; the shared stop is tripped exactly if some restart failed; nothing unplanned is reported |
| Maintenance.HealthyRunLaunchesAll | cmd/root.go:642-653 | without a planning error, a failed cordon, an expired context and a failing target every planned target is launched |
| Maintenance.FailuresAreReported | cmd/root.go:609-656 | a failure is in the joined error exactly if some launched target failed |
| PodStore.ListPods | pkg/operations/postgresql.go:433-439 | a listing shows exactly the matching instances at that moment |
| PodStore.MarkEffectMarks | pkg/operations/postgresql.go:584-594 | on a free pod the marking operations add both annotations and keep everything else |
| PodStore.UnmarkEffectUnmarks | pkg/operations/postgresql.go:601-611 | the removing operations delete the ownership annotation, the marker if it was seen, and keep everything else |
| PodStore.ExecuteMark | pkg/operations/postgresql.go:574-596 | the marking patch takes effect exactly if the very instance and version that was read is still there |
| PodStore.PatchMark | pkg/operations/postgresql.go:579-596 | with concurrent writers and a lost answer: it hits only the pod that was read free of markers, a definite rejection means no effect, and only this instance can newly carry the run's ID |
| PodStore.ExecuteUnmark | pkg/operations/postgresql.go:598-611 | the removing patch takes effect only on the instance with that UID and only while it carries this run's ID |
| PodStore.PatchUnmark | pkg/operations/postgresql.go:601-627 | the same with concurrent writers and a lost answer; after an effect the instance no longer carries the ID |
| Marking.HealthyPods | pkg/operations/postgresql.go:463-497 | a plan is returned exactly if the CR read Running with at least one instance and the listing shows exactly that many healthy pods |
| Marking.Preflight | pkg/operations/postgresql.go:446-457 | the plan is healthy and free of any marker, and nothing was patched |
| Marking.MarkOne | pkg/operations/postgresql.go:534-548 | a pod is recorded exactly if its patch was acknowledged or may have been applied |
| Marking.Remaining | pkg/operations/postgresql.go:560-571 | the unmarked pods of a refreshed plan; a foreign marker on one of them is detected |
| Marking.Refresh | pkg/operations/postgresql.go:556-571 | a refresh is a full health check, at most one listing, and says why it failed |
| Marking.MarkPods | pkg/operations/postgresql.go:525-572 | on success the marked pods include every pod of the last healthy listing; on failure the trip is the next event after the failing one and the cause is in the log; the plan is refreshed only after a round in which every pending pod was tried and some pod had changed; in all cases every live instance of the cluster with this run's ID is in the returned map, and every request was made without delay and answered as the script of the other writers and the network says |
| Marking.StopsAtOtherErrors | pkg/operations/postgresql.go:534-548 | marking fails at a patch exactly if that was answered with an error other than 404, 409 and 422 |
| Marking.SuccessMetNoOtherErrors | pkg/operations/postgresql.go:534-548 | a marking that succeeds met no failed patch but those answered with 404, 409 or 422 |
| Marking.TwoRefreshes | pkg/operations/postgresql.go:525-560 | at most two refreshes, and exactly two before giving up on pods that keep changing |
| Cleanup.CleanOne | pkg/operations/postgresql.go:674-702 | the class of one instance is justified by this attempt's listing or by an acknowledged removal |
| Cleanup.CleanRound | pkg/operations/postgresql.go:674-703 | one attempt tries every pending instance once and keeps the books |
| Cleanup.RemoveMarkers | pkg/operations/postgresql.go:640-731 | no live instance of the cluster carries the run's ID except those reported as still marked; the five classes split the marked pods as a multiset, and each instance is in the class of the first event that settles anything about it; at most 3 removals per instance, none to any other pod and none after its fate is settled; nothing is given up early and no attempt or pause begins after the deadline; a new attempt begins only after every open instance was tried in each attempt so far, removals are for the pods as last listed, there is one pause between two attempts and no other, and every answer and effect is what the script yields |
| Cleanup.LeftAfterThree | pkg/operations/postgresql.go:640-731 | an instance is left behind only after three attempts, each of which failed to list the pods or to remove its marker, or when the time is over |
| Cleanup.FateSettledAt | pkg/operations/postgresql.go:674-702 | the class of an instance is what one event of the log settles, and no earlier event settles anything about it |
| Cleanup.AcknowledgedIsRemoved | pkg/operations/postgresql.go:694-702 | an acknowledged removal files the instance as removed, whatever is seen later |
| Cleanup.NeverMarkedIsFalse | pkg/operations/postgresql.go:674-702 | an instance from which a removal took effect is filed as never marked exactly if the answer was lost and the first listing that settles anything shows it free of both annotations |
| Cleanup.NeverMarkedIsTrue | pkg/operations/postgresql.go:674-702 | without an ambiguous answer to a removal, nothing was removed from an instance filed as never marked |
| Cleanup.LostRemoval | pkg/operations/postgresql.go:640-731 | the cleanup of one pod run under every script that executes its first removal without an acknowledgement and then answers the next listing: the marker is removed and the instance filed as never marked |
| Rotation.DoneMeansComplete | pkg/operations/postgresql.go:781-785 | the counters say done exactly if no marked instance is listed, no marker is left, every staying pod is healthy, their number is numberOfInstances and the operator reports Running |
| Rotation.CountReplaced | pkg/operations/postgresql.go:818-822 | the number of marked instances that are no longer listed |
| Rotation.ObserveRotation | pkg/operations/postgresql.go:793-824 | the observation consists of the counts of one CR read and one listing |
| Rotation.EffectiveStall | pkg/operations/postgresql.go:925-934 | by default 3 stall intervals fit in the timeout and none exceeds 60 s; it is the largest such interval |
| Rotation.RetriggersBounded | pkg/operations/postgresql.go:888-901 | one wait sends at most maxRetriggers re-triggers |
| Rotation.RetriggerSpacing | pkg/operations/postgresql.go:879-901 | two re-triggers are at least stall/4 apart, one for lack of progress at least stall after the previous |
| Rotation.RetriggerAfterStart | pkg/operations/postgresql.go:848-882 | the first re-trigger comes at least stall/4 after the start |
| Rotation.NoProgressMeansQuiet | pkg/operations/postgresql.go:875-887 | a re-trigger for lack of progress comes at least stall after the start and after the last poll with a new maximum of replaced pods |
| Rotation.FailedStatusSends | pkg/operations/postgresql.go:875-901 | while a failed sync is reported, a re-trigger is sent exactly if one is left and none was sent, nor had the waiting begun, within a quarter of the stall interval |
| Rotation.NoProgressSends | pkg/operations/postgresql.go:875-901 | while a marked pod is left and no failed sync is reported, a re-trigger is sent exactly if one is left and for a whole stall interval none was sent and no further pod was replaced |
| Rotation.PollOnce | pkg/operations/postgresql.go:855-902 | one poll decides on a re-trigger as the whole history of polls says, at the time its reads were answered, trips at the first API error in time (and only then) and at every failed re-trigger |
| Rotation.WaitForRotation | pkg/operations/postgresql.go:839-915 | the wait polls at once and again right after every tick at which the context had not expired, and does nothing else; success means the last poll saw a complete rotation and no live instance of the cluster carries the run's ID; a failure means no poll did and the context had expired at the tick after the last poll |
| Rotation.CompletedShows | pkg/operations/postgresql.go:781-785 | a wait that succeeded ends with one CR read and one listing that show the rotation complete |
| Rotation.DoneMeansGone | pkg/operations/postgresql.go:781-785 | a complete observation implies that all marked instances are gone for good |
| Postgresql.HeadIsCovered | pkg/operations/postgresql.go:298-310 | before the trigger every pod of the last healthy observation is marked, and every marked instance was in some healthy observation (it may have been replaced since) |
| Postgresql.FailAndClean | pkg/operations/postgresql.go:307-326 | a failure path that cleans up keeps the trip before every removal and leaves no silent leftovers |
| Postgresql.TriggerAndWait | pkg/operations/postgresql.go:313-366 | a rejected trigger, and an ambiguous one nobody waits for, trips and cleans up; an ambiguous one that is waited for stays a failure |
| Postgresql.WaitAndFinish | pkg/operations/postgresql.go:350-366 | a failed wait trips, then cleans up; a completed wait is an error exactly if something tripped on the way |
| Postgresql.RestartCluster | pkg/operations/postgresql.go:291-367 | an error exactly if this restart tripped the stop; the trip comes before every removal and no pod is marked after it; foreign markers are never touched; on every exit but the successful skip-wait one every live instance of the cluster with the run's ID is reported as still marked; success without skip-wait means all marked instances are gone; the log is exactly head, trigger, polls under the run's own stall interval and re-trigger bound and timed by its own contexts, trip and cleanup, without delay, every request answered as the script of the other writers and the network says; the kind of error is explained by the log and the clock |
| Postgresql.RefusedForAReason | pkg/operations/postgresql.go:446-497 | a cluster is refused only for a failed read, a status other than Running, a wrong number of pods, a pod that is not healthy, or a pod that already carries one of the two annotations |
| Postgresql.HeadWasHealthy | pkg/operations/postgresql.go:463-497 | every listing the pods were marked from came right after a CR read Running and showed as many pods as wanted, at least one, all Running, Ready and not being deleted |
| Postgresql.TriggerDecides | pkg/operations/postgresql.go:313-348 | the restart ends at the trigger exactly if the answer is a 4xx other than 408, or any other error and nobody is to wait; otherwise it waits, unless nobody is to |
| Postgresql.SuccessShows | pkg/operations/postgresql.go:350-366 | a restart that succeeds after waiting ends with a CR read Running and a listing without the marked instances and without markers, whose staying pods are Running, Ready and as many as wanted |
| Postgresql.TouchesBounded | pkg/operations/postgresql.go:888-901 | a restart that reaches its trigger touches the custom resource once plus once per re-trigger, at most 1 + maxRetriggers times |
| Postgresql.DefaultSpacing | pkg/operations/postgresql.go:848-934 | with the default interval, the smaller of 60 s and a third of the timeout, two re-triggers of a restart are at least a quarter of it apart and one for lack of progress a whole one |
| Cordon.GetNode | pkg/operations/cluster.go:440-453 | the node as it is at that moment, or that it does not exist |
| Cordon.PatchNode | pkg/operations/cluster.go:460-468 | the patch takes effect only on the very version that was read, and the run's marker stays truthful |
| Cordon.ClusterOperations.VerifyOwnCordon | pkg/operations/cluster.go:546-572 | the node counts as cordoned exactly if the same instance is read with the run's marker and unschedulable, and only then it is recorded |
| Cordon.ClusterOperations.TryCordon | pkg/operations/cluster.go:508-541 | what one patch did and what its answer was taken to mean |
| Cordon.ThenPatch | pkg/operations/cluster.go:488-541 | earlier conflicts change nothing about what the last patch decides |
| Cordon.DecidedByRead | pkg/operations/cluster.go:489-506 | a missing or unschedulable node settles the matter without a patch; only one with the run's marker is recorded |
| Cordon.ClusterOperations.CordonNode | pkg/operations/cluster.go:483-544 | at most 5 patches, and exactly 5 before giving up on a node that keeps changing; every patch before the one that decides was refused as a conflict; recorded exactly if the last event shows this run's cordon of that instance, and then this run's own patch turned that very instance from schedulable to unschedulable; success means seen missing, seen or made unschedulable, and no cordon of the call is lost; the result follows from the last events, and every uncertain answer is followed by a re-read; reads and patches alternate, every patch is conditioned on the read before it, and every answer and effect is what the script of the other writers and the network yields |
| Cordon.AnswerDecides | pkg/operations/cluster.go:508-541 | what each answer to a patch leads to: success and 404 end the call without an error, 409 is retried unless it answers the last patch, a broken connection, 5xx, a missing code or a timeout is followed by one re-read, and anything else is the error returned |
| Cordon.UnrecordedCordon | pkg/operations/cluster.go:508-541 | a cordon that took effect is not recorded exactly if its answer was an error that is neither uncertain nor a definite rejection, or the re-read did not confirm it; the call fails then and the record is unchanged |
| Cordon.OverlookedCordon | pkg/operations/cluster.go:483-541 | the call run under every script that lets its patch take effect and answers it with an error that is neither uncertain nor a definite rejection: exactly one read and one patch, the node cordoned with the marker, the error returned, no record |
| Rollouts.DeploymentRolloutStatus | pkg/operations/deployments.go:512-555 | done exactly if the awaited generation is observed, all counters equal the desired count and no deadline is exceeded; terminal exactly if observed and exceeded; otherwise the reason is the first condition in order that is not met |
| Rollouts.StatefulSetRolloutStatus | pkg/operations/statefulsets.go:437-467 | done exactly if the awaited generation is observed, all counters equal the desired count and the revisions agree; never terminal; otherwise the reason is the first condition in order that is not met |
| Rollouts.Classify | pkg/operations/deployments.go:491-501 | ready exactly for a completely rolled out object; waiting names the first condition that is not met; a missing object is terminal and any other API error is not, both only while the context lasts |
| Rollouts.CheckOne | pkg/operations/helpers.go:366-395 | one check is of the answer given at its own turn, keeps every variable equal to what the log says, and trips at once at the first API error in time |
| Rollouts.RunPass | pkg/operations/helpers.go:361-395 | one pass checks remaining targets, each at most once, without delay, and all of them unless the context expires before; unless it does, nothing is left not ready exactly if each was ready or terminally failed |
| Rollouts.WaitForRollouts | pkg/operations/helpers.go:324-430 | the wait consists of passes, the first at once and each further one right after a tick at which the context had not expired; it ends uninterrupted exactly if a complete pass found every remaining target ready before the context expired; it is given up only if the context has expired at the tick after the last pass, and then reports exactly the pending targets and their latest reasons |
| Rollouts.SuccessMeans | pkg/operations/helpers.go:313-323 | success exactly if no target ever failed, no poll had an API error in time, and one single pass found every target ready |
| Rollouts.SuccessSawRollouts | pkg/operations/deployments.go:488-503 | on success that pass saw each target's object completely rolled out at the generation of its patch |
| Rollouts.PendingXorFailed | pkg/operations/helpers.go:335-386 | at any time a target is either pending or has a recorded failure, and no target fails twice |
| Rollouts.RestartOne | pkg/operations/deployments.go:462-486 | the result follows from cancellation, the answer to the patch with its ambiguity flag, or the wait; success after waiting means the rollout started by this patch was seen complete; nothing is polled before the patch was accepted; tripping implies an error |
| Rollouts.TripsExactly | pkg/operations/helpers.go:366-377 | a workload restart trips the stop itself exactly if its wait has an API error to report |
| Kafka.SelectPodSets | pkg/operations/kafka.go:467-496 | exactly the PodSets with the cluster label, no other kind label, and a fitting owner if they have owners, in ascending order of their names |
| Kafka.SortedArranges | pkg/operations/kafka.go:494-495 | sorting keeps the names and puts them in ascending order |
| Kafka.PrecedesMeans | pkg/operations/kafka.go:494-495 | the order is lexicographic: a prefix first, otherwise the first differing character decides |
| Kafka.ConditionTrue | pkg/operations/kafka.go:570-588 | the first Ready condition decides |
| Kafka.FirstReadyDecides | pkg/operations/kafka.go:570-588 | the condition counts exactly if the first status listed for Ready is "True" |
| Kafka.KeepOwned | pkg/operations/kafka.go:853-867 | the pods controlled by one of the PodSets, in order |
| Kafka.EvaluatePodReplacement | pkg/operations/kafka.go:915-933 | done exactly if no recorded pod is left and exactly the expected number of staying pods exist, all Running and Ready |
| Kafka.OnlyOwnRecordsMatter | pkg/operations/kafka.go:364-366 | one evaluation: of the recorded pods only those of the awaited PodSets count |
| Kafka.DesiredPods | pkg/operations/kafka.go:418-428 | the sum of the desired pods over one read of each PodSet, or the first failed read |
| Kafka.RollCompleted | pkg/operations/kafka.go:539-567 | true exactly if every PodSet was read without the annotation and then the Kafka resource as Ready |
| Kafka.CheckClusterRestart | pkg/operations/kafka.go:936-959 | a poll completes exactly if its own reads show the restart complete, with the pod count desired at that poll, and stops at the first read that fails or shows that something is missing |
| Kafka.CompleteExactly | pkg/operations/kafka.go:915-959 | complete means, read by read: no pod of the PodSets was recorded before, the staying ones are as many as the PodSets want and Running with a first Ready condition "True", no PodSet is annotated, and the Kafka resource has a first Ready condition "True" |
| Kafka.OneConclusion | pkg/operations/kafka.go:936-959 | the reads of a poll leave only one conclusion |
| Kafka.WaitForClusterRestart | pkg/operations/kafka.go:971-1021 | polls until one completes or the context expires; each further poll follows a look at the unexpired context; the first API error in time is kept and tripped at once, only that one; how it ended is decided by the context after the last poll |
| Kafka.WaitSucceeds | pkg/operations/kafka.go:961-970 | success exactly if the last poll was complete and no poll had an API error in time; a trip excludes success |
| Kafka.PollIgnoresOthers | pkg/operations/kafka.go:936-959 | as long as recorded pods keep their owners, what a poll concludes does not depend on pods of PodSets that are not awaited, listed or recorded |
| Kafka.WaitIgnoresOthers | pkg/operations/kafka.go:316-366 | two waits that start at the same time with the same clocks and read the same but for pods of PodSets that are not awaited, the second with only the records of the awaited ones: equally many polls, at the same times, with the same conclusions, trips and result, as long as recorded pods keep their owners |
| Kafka.SuccessByTheClock | pkg/operations/kafka.go:981-1019 | success exactly if the last poll completed and every failed poll ended after expiry; expiry at the completing poll does not matter |
| Kafka.SuccessAfterExpiry | pkg/operations/kafka.go:981-1003 | in a cluster with one new ready pod, when the bounded context expires right after the fourth read: every read was answered in time, the context has expired at the end of the first poll, and the wait succeeds |
| Kafka.LateSuccess | pkg/operations/kafka.go:971-1003 | the wait itself, run four turns before its context expires, succeeds after expiry |
| Kafka.AnnotatePodSets | pkg/operations/kafka.go:322-343 | every PodSet is patched once in order, one patch a turn, each failure trips at once, and the awaited PodSets are those not definitely rejected |
| Kafka.AwaitedExactly | pkg/operations/kafka.go:322-343 | a PodSet is awaited exactly if some patch of it was acknowledged or failed without a 4xx other than 408 |
| Kafka.Prepare | pkg/operations/kafka.go:300-314 | before the first patch: the PodSets of the listing at that turn and, unless skipped, a non-empty record of their pods right after; otherwise nothing is mutated or tripped and the reads show why |
| Kafka.AnnotateAndWait | pkg/operations/kafka.go:322-371 | patches all PodSets, then waits for exactly those that were or may have been annotated |
| Kafka.RestartKafkaCluster | pkg/operations/kafka.go:297-372 | the log is reads, then patches with their trips, then the wait, one right after the other, each answered at its own turn |
| Kafka.SuccessMeans | pkg/operations/kafka.go:297-396 | no error exactly if every selected PodSet's patch was acknowledged and, unless skipped, the reads of one poll were those of a complete restart and no poll had an API error in time |
| Kafka.TripsExactly | pkg/operations/kafka.go:322-371 | the restart trips the stop itself exactly if a patch failed or the wait has an API error in time |
| Kafka.ErrorWithoutTrip | pkg/operations/kafka.go:322-371 | once it patches, it fails without tripping exactly if every patch was acknowledged, no poll had an API error in time and the wait ended without a complete poll |
| Kafka.GivingUpTripsNothing | pkg/operations/kafka.go:300-314 | giving up before the first patch never trips the stop |
| Kafka.FailedListing | pkg/operations/kafka.go:300-303 | a failed PodSet listing is returned as the error, and the stop is not tripped |
| Kafka.TrippedBeforeWaiting | pkg/operations/kafka.go:316-332 | after a partial patch failure the stop is tripped by the patches, before the wait, and the restart fails |
| Kafka.TripMeansError | pkg/operations/kafka.go:736-742 | a restart that trips the stop itself also returns an error |
| Restarts.TrippingMeansFailing | pkg/operations/kafka.go:736-742 | a restart of any kind that trips the stop itself fails, with the exact condition for tripping per kind |
| Restarts.RestartsAreDisciplined | pkg/operations/kafka.go:736-742 | any restarts keep the discipline that the launcher's agreement of errors and stop rests on |
| Restarts.PhaseAgrees | pkg/operations/helpers.go:223-264 | in every interleaving over such restarts with a fresh stop that nobody else trips: on return it is tripped exactly if there is an error to report, exactly if some launched restart failed |
| Restarts.RunRestarts | cmd/root.go:618-656 | the whole run over such restarts, whatever the schedules, with a signal nobody else trips: the stop is tripped at the end exactly if some launched restart failed, and then there is an error; a planned restart is left out only after the cordon failed, after the context expired, or after a launched restart of its phase or an earlier one failed |
| Restarts.RestartPostgresql | pkg/operations/kafka.go:746-755 | a job of the PostgreSQL launcher: called off if the context expired before, otherwise the restart, with its promise |
| Restarts.RestartKafka | pkg/operations/kafka.go:746-755 | a job of the Kafka launcher: called off if the context expired before, otherwise the restart, with its promise |
| Restarts.RestartWorkload | pkg/operations/deployments.go:462-486 | a job of the workload launcher, with the promise of its restart |
| Selection.MatchesRequirements | pkg/operations/helpers.go:119-126 | every required key is present with the required value |
| Selection.ContainsMeans | pkg/operations/helpers.go:91-114 | a text contains another exactly if it is that with something before and something after it |
| Selection.PodMatchesAnyImage | pkg/operations/helpers.go:91-114 | some image contains some non-empty substring; without one the filter is inactive |
| Selection.PodMatchesFilters | pkg/operations/deployments.go:115-119 | labels, annotations and image all match |
| Selection.HasPodFilters | pkg/operations/deployments.go:107-111 | some filter is active |
| Selection.ControllerOf | pkg/operations/deployments.go:243-245 | the first owner marked as controller, or none if no owner is |
| Selection.DeploymentsWithMatchingPods | pkg/operations/deployments.go:231-267 | exactly the Deployments that control a matching pod through a ReplicaSet; fails exactly if a needed listing fails |
| Selection.OwnershipChain | pkg/operations/deployments.go:231-267 | what owning a matching pod means: the first controller of the pod is a listed ReplicaSet, whose first controller is the Deployment, and the pod has the labels, the annotations and an image asked for |
| Selection.FlaggerPrimaries | pkg/operations/deployments.go:167-174 | exactly the names of existing Flagger primaries |
| Selection.PrimaryMeans | pkg/operations/deployments.go:151-153 | a primary is named with the suffix and has a Canary of Flagger as its controller |
| Selection.FirstFilters | pkg/operations/deployments.go:176-195 | the shadowed and too young Deployments are set aside, the rest become candidates in order |
| Selection.CompactCandidates | pkg/operations/deployments.go:203-211 | the in-place compaction keeps exactly the candidates with a matching pod, in order, and names the others |
| Selection.SkipPaused | pkg/operations/deployments.go:214-222 | paused candidates are set aside |
| Selection.ClassesPartition | pkg/operations/deployments.go:137-148 | the five classes split the listed Deployments |
| Selection.SelectDeployments | pkg/operations/deployments.go:159-225 | each result list is one class in listing order; an error exactly if a listing that is needed fails |
| Selection.SelectedExactly | pkg/operations/deployments.go:159-225 | selected exactly if not paused, at least as old as the minimum age, if any, not shadowed by a primary that a Canary controls, and, if pods are filtered at all, owning a matching pod |
| Selection.TargetOfPrimaryNeverSelected | pkg/operations/deployments.go:155-158 | a target whose Flagger primary exists is never selected, even if the primary was filtered out, unless the target is a primary itself; then it is selected exactly if it passes the other filters |
| Selection.PrimaryWithPrimaryIsSelected | pkg/operations/deployments.go:176-185 | a primary that has a primary of its own is restarted |
| Selection.SelectionAccounts | pkg/operations/deployments.go:137-148 | the sizes of the five classes add up to the number of listed Deployments |
| Quoting.QuotedReads | pkg/operations/helpers.go:459-469 | anywhere in a command line a quoted string reads as exactly that string |
| Quoting.QuoteRoundTrip | pkg/operations/helpers.go:461-469 | lexing the quoted string gives one word equal to it, for every string |
| Quoting.UncordonCommand | cmd/root.go:496-508 | the rollback hint lexes to exactly the two intended commands for every node list and context |
| Quoting.UnmarkCommand | pkg/operations/postgresql.go:736-747 | the clean-up hint lexes to exactly the intended command for every namespace, pod list and context |
| Patches.PointerRoundTrip | pkg/operations/postgresql.go:39-49 | every path of member names is addressed by its pointer |
| Patches.SourcePathsLead | pkg/operations/postgresql.go:39-49 | the pointers in the patches lead to the UID, the version, the annotations and, through the escaped slash, the ownership annotation |
| Patches.MarkPatchMeansMark | pkg/operations/postgresql.go:579-596 | applied to the encoded pod, the marking patch has exactly the typed tests and effect, all or nothing |
| Patches.UnmarkPatchMeansUnmark | pkg/operations/postgresql.go:601-611 | the same for the removing patch |
| Patches.CordonPatchMeansCordon | pkg/operations/cluster.go:455-468 | merged into the encoded node, the cordon patch cordons it, sets the ownership marker and changes nothing else |

## Left out

- `forEachNode`, the loop that cordons several nodes at once: the contract of each call holds whatever the other calls do to
  other nodes, but that the shared record is updated under a mutex is not modelled.
- The selection of StatefulSets, the cordon plan and the splitting of custom resources by age: the same shapes as the
  Deployment selection with other predicates.
- The order in which names are sorted for messages and for polling Deployments, and pods for the cleanup: every order is
  allowed, which is more general.
- The failure of a request whose context had expired before it was sent: here it may be answered as well as fail, which is
  more general.
- Logging, error wording and output: errors are tagged values. The progress numbers in messages are not specified.
- Dry run, reporter, flag parsing, API discovery, the TTL cache and JSON decoding of API answers.
- Real time: durations are unbounded integers of nanoseconds, so overflow of a duration is not modelled, and a tick that
  arrives together with the end of the context is not taken (the program may run one more poll then).
- Maintenance.RestartPlanned: a restart is one job with a given outcome here; that the restarts of `Rollouts`, `Kafka` and
  `Postgresql` are jobs with the discipline assumed here is `Restarts.RestartsAreDisciplined`. What they do to each other's
  objects while they run is not modelled beyond the arbitrary environment of each.
- Planning.PlanAll: what a selector finds is given per namespace; it does not depend on when the selector runs.
- JSON Patch inside arrays: the documents addressed by the patches are objects only; a path into an array fails.
- Liveness of a rotation: the operators are unconstrained, so only safety and the bounded end of every wait are claimed.
