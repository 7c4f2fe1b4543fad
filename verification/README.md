# GenesisRM PodManager: a verified model

The project models the two control systems of the repository and one pure function, and proves
what they keep over all runs.

**The suspend/activate protocol.** The SwiftDeployment controller and the swiftlet of each node
share two pod labels, `swiftkube.io/state` and `swiftkube.io/sleep`. `SwiftLabels` has every label
rewrite; `LabelProtocol` is the protocol on one pod: a history of stored versions, writes accepted
only from the newest version, controllers that may have read any version however old, and a
swiftlet whose cache only moves forward and which handles one pod at a time. `ApiServer`,
`Swiftlet`, `Strategy` and `DeploymentController` are the handlers, proved against it, and
`Cluster` is all of them together: for every pod a run of the whole system, with any number of
nodes, is a run of the protocol. `Convergence` counts active pods: no pass overshoots on current
lists, exactly when one does on old lists, and why the label writes end and where.

**The resource controller.** Each tick classifies the node's pods, sums their demand, cuts the
cores into LC, MIX and BE sets with 64-bit arithmetic, skips writes when the totals stand still,
keeps shadows of `cpu.max` and `memory.high`, and sweeps its metrics table. `PodLabels` reads the
labels, `Classifier` decides on one pod, `Cpuset` has the core lists and the split, `NodeTick` is
the tick as a function, and `ResourceController` is the tick as the source runs it, loop by loop,
proved equal to that function. `TickProjection` shows that a tick treats each pod as if it were
alone, `PodHistory` proves what holds of one pod over any number of ticks, and `TickRuns` proves
that every run of the node is such a history for every pod. `MemoryHistory` is about `memory.high`
and its shadow. `Scaling` is the quota feedback `dynCalculateQuota`, over the sliding windows of
`Sample`; the tick feeds and calls it on each record, and `FeedbackHistory` shows that every
record's feedback is the run of `Scaling` over exactly what the record was fed. `ZeroDemand` is a
concrete run of the node that ends with a latency-critical and a best-effort pod on the same
cores, and `PodScenarios` has short histories of one pod that reach the other bad states.

**The cgroup path.** `CgroupPath` builds the path branch by branch as the source does (over
`Text`, which has Go's `filepath.Join` with cleaning), proves it to be a chain of systemd slices
(systemd.slice(5)), and gives its inverse and the exact condition under which it has one, for
container groups, pods and containers alike.

Methods follow the source's loops and assignments; functions specify them; lemmas about the
functions carry the results. What depends on labels, class names and constants is stated in their
own texts and numbers, apart from the functions that read them. Floats are `real`, so rounding is not modelled. A cast to `uint64`
that does not fit yields an arbitrary word, and each pod is looked at with one clock reading per
tick. Clock readings, list contents and orders, read
failures and write failures are parameters, and every statement is for all of them. A node has at
least one core. A pod listing names every pod once, and the pod manager stores a pod only together
with its cgroup.

## Where the code differs from what it says

- The comment at pkg/controller/swiftdeployment/swiftdeployment_controller.go:316 wants
  `RunningReplicas` to be at most `Replicas`. The clamp is made on a copy that is then dropped
  (`needToUpdate` stays false), so the code, and the model, work with the unclamped number.
  `WhenClampMatters` says exactly when that changes the writes, `ClampIsDropped` runs a sync in
  which it does, and `SettledCountIgnoresReplicas` says what it does to the count. A sync goes on to
  adjust only when all replicas are available, so its lists show more pods than `Replicas` only for
  a while: while a pod terminates, or while the cache is old.
- A latency-critical pod whose demand drops to zero keeps cores that best effort also gets. Its
  cpuset becomes an empty list, which the cgroup library does not write
  (vendor/github.com/containerd/cgroups/v3/cgroup2/cpu.go:70-75) while it reports success, and the
  best-effort pods are given the whole node: `WrittenSetsSplitNode`, and the run
  `NappingPodSharesItsCores`.
- Writes are skipped while the totals stand still, so a pod keeps its list until the totals next
  move: `SkippedWritesAreStillRight` says what every pod holds and exactly when that is what its set
  is entitled to. A pod that changes sets holds the wrong list unless the two sets coincide
  (`ChangingSetsKeepsTheList`, `DemotedPodKeepsLcCores`), and one that joins late, or whose write
  failed, keeps whatever it came with (`UnwrittenKeepsItsList`, `LateJoinerKeepsItsList`,
  `FailedWriteIsNotRepeated`).
- The const `CPUSET_ULIMITED` (pkg/podmanager/sdk/const.go:73) names a cpuset that no loop acts on.
  Such a pod is still reclaimed in a long nap, because naps are placed with best effort, and then
  keeps `memory.high` at zero for as long as it runs normally: `UnmanagedStaysReclaimed`, reached in
  `AwakePodStaysReclaimed`.
- The feedback is meant to have a throttle target per pod
  (pkg/podmanager/resource_controller.go:328), but is always called with zero. Its margin is then
  the sum of the mean throttling seen by every call that rescaled or rolled back, and never comes
  down while the record lives:
  `FeedbackIsScalingRun`, `MarginNeverFalls`.
- A container group called `burstable` or `besteffort` on a guaranteed pod yields the cgroup path
  of that QoS class (`GroupCollidesWithClass`), a container group called `pod` and then a uid
  yields the path of the pod with that uid (`GroupCollidesWithPod`), and groups or uids that differ
  only in `-` and `_` share a path: `PathsCoincide` and `PathRoundTrip` say exactly when.
- A running pod that is in the MIX set whenever it is listed never reaches the CPU state that the
  endpoint loop at pkg/podmanager/server.go:330-337 waits for: `MixPodNeverOpensGate`, with the
  exact condition in `GateAfterHistory`.
- A sync pass on an out-of-date list can overshoot: `WhenAPassOvershoots` says exactly when, and
  `StaleListOvershoots` is an instance.
- `metrics` is keyed by name. When a pod is replaced by another of the same name between two ticks
  and its record survives, the remembered `memory.high` is right again, after any number of turns,
  exactly when it was unset, or the new pod came with the old one's value, or some turn asked for
  another value than the remembered one and got its write through (`ReplacementAndShadow`). Until
  then the new pod keeps its own value (`IncoherentShadowPersists`, reached in
  `ReplacementMisleads`). The runs of `TickRuns` leave such replacements out.

## Model

| member | source | states |
|---|---|---|
| LabelProtocol.StoredStateMatchesProcess | pkg/swiftlet/controller.go:225-271 | for every pod not created asleep and over every run, however stale the readers and whichever writes are lost, a pod stored as `running` never had suspension as its swiftlet's latest process, and one stored as `sleeping`/`done` always did |
| LabelProtocol.SafeUnlessCreatedAsleep | pkg/swiftlet/controller.go:253-270 | that safety holds of every run if and only if the pod was not created with the labels of a sleeping pod |
| LabelProtocol.StepKeepsInv | pkg/swiftlet/controller.go:225-271 | every step of swiftlet, controller and other writers keeps the invariant: from the cached version on, no `sleeping` version precedes a `running` one and no `runnable` one precedes one that is asleep |
| LabelProtocol.BackwardCacheIsUnsafe | pkg/swiftlet/controller.go:209-219 | the forward-moving cache is needed: one fallback after a full cycle makes the swiftlet suspend a pod stored as `running` |
| LabelProtocol.VersionsAreMoves | pkg/controller/swiftdeployment/swiftdeployment_controller.go:380-452 | in every run each stored version follows the one before by one of the protocol's moves, which leave all other labels alone and change `sleep` only when a suspension is asked for or reported done, or was written by somebody else, who leaves `state` and `sleep` alone |
| ApiServer.Server.Update | pkg/swiftlet/controller.go:250-252 | an update takes effect only from the newest version of an existing pod, and may take effect although an error is reported |
| Swiftlet.Controller.Observe | pkg/swiftlet/controller.go:91-103 | the cache takes the delivered version, the first one or one no older than the last |
| Swiftlet.ObserveIsStep | pkg/swiftlet/controller.go:91-103 | that is a cache step of the protocol for the pod, also when it is the first version seen, and touches no other pod |
| Swiftlet.Controller.BeginSync | pkg/swiftlet/controller.go:199-268 | the handler's branches up to its update call run the reaction to the cached labels and prepare its publication, for a pod of this node only |
| Swiftlet.BeginIsStep | pkg/swiftlet/controller.go:199-268 | that is the protocol's start step for the pod handled, if it is on this node and the worker is free, and nothing for any other |
| Swiftlet.Controller.FinishSync | pkg/swiftlet/controller.go:250-277 | sends the prepared write, and reports success exactly when it was made from the newest version and answered |
| Swiftlet.FinishIsStep | pkg/swiftlet/controller.go:250-277 | that is the protocol's finish step and leaves every other pod alone |
| Cluster.NextIsProtocolStep | pkg/swiftlet/controller.go:91-277 | whatever happens on whichever node is to each pod one event of its protocol or nothing |
| Cluster.RunIsProtocolRun | pkg/swiftlet/controller.go:91-277 | every run of server, swiftlets and controller from the empty system is, for each pod in it, a protocol run from the labels the pod was created with |
| Cluster.SystemIsSafe | pkg/swiftlet/controller.go:225-271 | so in every run of the system no pod, unless created asleep, is stored `running` after its suspension or asleep without it |
| Cluster.VersionsAreMoves | pkg/swiftlet/controller.go:225-271 | the same of every pod in every run of server, swiftlets and controller |
| Cluster.SyncIsSteps | pkg/controller/swiftdeployment/swiftdeployment_controller.go:373-411 | a whole sync of the controller, failing anywhere and from lists of any age, adds only single controller writes to such a run |
| Strategy.GetPodInOrder | pkg/controller/swiftdeployment/strategy.go:44-55 | picks the prefix of length `min(number, len)` when `number >= 1` and the whole list otherwise |
| DeploymentController.Controller.AdoptPods | pkg/controller/swiftdeployment/swiftdeployment_controller.go:373-388 | labels the unlabelled pods in list order up to and including the first failure, which it reports |
| DeploymentController.Controller.SyncRunningPod | pkg/controller/swiftdeployment/swiftdeployment_controller.go:425-454 | writes exactly the planned suspensions or activations, ignoring their errors; fails before any write when a list fails |
| DeploymentController.PlanInWords | pkg/controller/swiftdeployment/swiftdeployment_controller.go:434-451 | a pass plans as many of the listed active pods as there are too many, or as many of the listed sleeping ones as are missing, from the front of their own list, or all there are |
| DeploymentController.SelectDistributes | pkg/controller/swiftdeployment/swiftdeployment_controller.go:485-499 | the selection takes its pods out of every part of a list, in list order |
| DeploymentController.PassStoresMoves | pkg/controller/swiftdeployment/swiftdeployment_controller.go:436-451 | a pass stores of every pod nothing or one move from its newest version, with all other labels as they were |
| DeploymentController.FailureEndsAdoption | pkg/controller/swiftdeployment/swiftdeployment_controller.go:378-388 | after the first failing write no later pod is labelled |
| DeploymentController.Controller.SyncHandler | pkg/controller/swiftdeployment/swiftdeployment_controller.go:373-411 | adopts, and adjusts the active pods only if every list, adoption and the update of the deployment succeed and every replica is available; reports any of those failures; the two writes a pod may get fare independently |
| DeploymentController.WhenSyncAdjusts | pkg/controller/swiftdeployment/swiftdeployment_controller.go:390-411 | a deployment with other replicas than asked for must be updated, and only the returned one's numbers count; while replicas are missing nothing is adjusted; and which failures are reported |
| DeploymentController.SyncIsProtocolStep | pkg/controller/swiftdeployment/swiftdeployment_controller.go:434-452 | from lists of any age, a pass does to every pod nothing or one controller step of the protocol |
| DeploymentController.ControllerKeepsInv | pkg/controller/swiftdeployment/swiftdeployment_controller.go:373-454 | neither loop of the controller can break the protocol's invariant on any pod |
| DeploymentController.WhenClampMatters | pkg/controller/swiftdeployment/swiftdeployment_controller.go:316-325 | the dropped clamp would lead to the same writes if and only if the asked-for number is within `Replicas` or the listed active and sleeping pods are |
| DeploymentController.ClampIsDropped | pkg/controller/swiftdeployment/swiftdeployment_controller.go:316-411 | two listed sleeping pods, two running replicas, one replica asked for and available: a whole sync activates both pods, where the clamped number would activate one |
| Convergence.WriteDecreases | pkg/controller/swiftdeployment/swiftdeployment_controller.go:373-454 | every label write by a party that sees the current labels lowers `2*abs(active - desired) + waiting + 3*unlabelled` |
| Convergence.RunsAreShort | pkg/controller/swiftdeployment/swiftdeployment_controller.go:288-423 | in every interleaving there are no more label writes than that measure was at the start |
| Convergence.QuietIsConverged | pkg/controller/swiftdeployment/swiftdeployment_controller.go:425-454 | no write is possible if and only if all pods are `running` or asleep (or carry a foreign state) and the active count is the desired one, clamped to what there is |
| Convergence.RunsSettleCount | pkg/controller/swiftdeployment/swiftdeployment_controller.go:288-454 | every interleaving that comes to rest ends with the same active count, known from the start: the desired one clamped to the pods without a foreign state |
| Convergence.RunsCanSettle | pkg/controller/swiftdeployment/swiftdeployment_controller.go:288-454 | from all labels and for every desired count some interleaving comes to rest |
| Convergence.SyncNeverOvershoots | pkg/controller/swiftdeployment/swiftdeployment_controller.go:425-454 | on current lists and with any writes lost, a pass moves the active count towards the desired one and not past it, changes no unselected pod, and is a sequence of permitted writes |
| Convergence.OnePassSuffices | pkg/controller/swiftdeployment/swiftdeployment_controller.go:425-454 | with no write lost, one pass reaches the desired count or runs out of pods, and the next plans nothing |
| Convergence.WhenAPassOvershoots | pkg/controller/swiftdeployment/swiftdeployment_controller.go:425-454 | on lists of any age some fate of its writes makes a pass overshoot if and only if it plans more pods still at the version it has seen than the present gap |
| Convergence.PassMovesCount | pkg/controller/swiftdeployment/swiftdeployment_controller.go:425-454 | a pass on lists of any age moves the active count by its writes that are made from the newest version and not lost |
| Convergence.StaleListOvershoots | pkg/controller/swiftdeployment/swiftdeployment_controller.go:425-454 | of three running pods, two passes on the same versions in different orders leave one active where two are wanted |
| Convergence.HandlerSettlesCount | pkg/controller/swiftdeployment/swiftdeployment_controller.go:373-411 | one whole sync on current lists with nothing lost labels every pod and makes the active count the desired one, or as near as there were pods before it |
| Convergence.SettledCountIgnoresReplicas | pkg/controller/swiftdeployment/swiftdeployment_controller.go:316-325 | after a lossless pass more than `Replicas` pods are active if and only if more are asked for and that many were there before it |
| Convergence.AdoptionIsPermittedRun | pkg/controller/swiftdeployment/swiftdeployment_controller.go:378-388 | the labelling loop, failing anywhere, is a sequence of permitted writes and leaves other pods alone |
| Convergence.AdoptionLabelsAll | pkg/controller/swiftdeployment/swiftdeployment_controller.go:378-388 | when it reports success every listed pod has a state label |
| Convergence.SwiftletPublishes | pkg/swiftlet/controller.go:238-271 | an undisturbed swiftlet sync performs a permitted publication, or has nothing to do |
| Sample.WindowRefinesHistory | pkg/podmanager/sample/sample.go:39-46 | after any inputs the window holds exactly the last `maxLength` of them, in order |
| Sample.SuffixIsLast | pkg/podmanager/sample/sample.go:42-45 | cutting back keeps the end of the inputs, of the window's length or all there are |
| Sample.FlushLeavesZeros | pkg/podmanager/sample/sample.go:39-74 | as many zero updates as the window is long leave only zeros and a zero mean |
| Sample.SumIsAdditive | pkg/podmanager/sample/sample.go:61-67 | the sum of a joined window is the sum of its parts |
| Sample.MeanIsAverage | pkg/podmanager/sample/sample.go:69-74 | the mean times the number of values is their sum, and zero for none |
| Sample.MaxIsAttained | pkg/podmanager/sample/sample.go:48-59 | the seeded maximum bounds every value, and is one of them if and only if some value is at least -2^63 |
| Sample.FixLengthSample.Update | pkg/podmanager/sample/sample.go:39-46 | appends to the history and keeps the window its suffix |
| Sample.FixLengthSample.Max | pkg/podmanager/sample/sample.go:48-59 | returns the largest of the last inputs if one is at least -2^63, or zero when there are none |
| Sample.FixLengthSample.Sum | pkg/podmanager/sample/sample.go:61-67 | returns the sum of the last inputs |
| Sample.FixLengthSample.Mean | pkg/podmanager/sample/sample.go:69-74 | returns the mean of the last inputs, zero when there are none |
| Scaling.RollbackExcludesScaleUp | pkg/podmanager/resource_controller.go:104-133 | a rollback and a scale-up never happen in one call; after any reaction the throttling window is ten zeros and no rollback is due |
| Scaling.ScaleDownIsBounded | pkg/podmanager/resource_controller.go:116-129 | a scale-down lands between half and nine tenths of the current quota and not below any usage in the window |
| Scaling.ScaleUpGrows | pkg/podmanager/resource_controller.go:121-122 | a scale-up yields more than the current quota |
| Scaling.ReturnedIsBoundedBelow | pkg/podmanager/resource_controller.go:134-138 | every call returns at least 0.1 core, and at least half the current quota unless it ended in a plain rollback |
| Scaling.EarlyCallInNumbers | pkg/podmanager/resource_controller.go:98-112 | within a second of the last rescaling a call keeps the quota, or rolls back to twice the last less the current one, exactly when the mark is set and throttling exceeds three times its target |
| Scaling.DueCallInNumbers | pkg/podmanager/resource_controller.go:115-133 | a later call scales up by one plus the excess over three times the target, or proposes usage plus margin times spread times new margin and goes there, or to half the quota, exactly when that is at most nine tenths of it |
| Scaling.DueRollbackInNumbers | pkg/podmanager/resource_controller.go:104-133 | a later call that rolls back can only scale down, with the margin that the rollback has raised |
| Scaling.OneCallKeepsBooks | pkg/podmanager/resource_controller.go:104-133 | what every call leaves of margin, mark, windows and time |
| Scaling.WhatACallReturns | pkg/podmanager/resource_controller.go:136-138 | the quota, at least a tenth of a core, in microseconds of a period of 100000, rounded up |
| Scaling.FirstSecondIsQuiet | pkg/podmanager/resource_controller.go:57-66 | a call in the first second of a record changes nothing |
| Scaling.RunsStayWellFormed | pkg/podmanager/resource_controller.go:43-139 | over every run the margin is non-negative and both windows are bounded and non-negative |
| Scaling.WindowsHoldTheLast | pkg/podmanager/resource_controller.go:63-64 | over every run the windows hold the last fifty usage samples, and the last ten of the throttling samples and of the zeros with which calls flush them |
| Scaling.MarginIsWorstStretch | pkg/podmanager/resource_controller.go:104-119 | over every run the margin equals the largest total excess of throttling over its target that any stretch of calls up to now has accumulated, or zero |
| Scaling.MarginIsTotal | pkg/podmanager/resource_controller.go:104-119 | when the target is always zero that worst stretch is the whole run |
| Scaling.RollbackUndoesScaleDown | pkg/podmanager/resource_controller.go:104-129 | when a call rolls back, the last rescaling of the run was a scale-down and nothing has been rolled back since |
| Scaling.CpuMetrics.Observe | pkg/podmanager/resource_controller.go:357-360 | feeds both windows with one sample and changes nothing else |
| Scaling.CpuMetrics.DynCalculateQuota | pkg/podmanager/resource_controller.go:98-139 | leaves the state and returns the quota that the feedback function gives, or the platform's word when it does not fit 64 bits |
| Cpuset.CpusetString | pkg/podmanager/resource.go:47-56 | writes the cores as comma-separated decimals |
| Cpuset.CpusetTextRoundTrip | pkg/podmanager/resource.go:47-56 | reading that text back gives the same cores in the same order |
| Cpuset.SplitCoversTheNode | pkg/podmanager/resource_controller.go:579-645 | with `minBe` three percent of the cores, rounded up, the LC set is the first `lc` cores and the BE set everything from the end of the demand, or the last `minBe`; they cover the node and share exactly `max(0, lc + minBe - cores)` cores |
| Cpuset.MixRangeUnderWraparound | pkg/podmanager/resource_controller.go:595-614 | the wrapping MIX range is right for every demand that fits, and never reaches past the last core |
| Words.WrapsAround | pkg/podmanager/resource_controller.go:598-625 | 64-bit addition and subtraction wrap, and undo each other |
| Words.ToWordTruncates | pkg/podmanager/resource_controller.go:138 | a cast to `uint64` drops the fraction of what fits, and yields an arbitrary word for the rest |
| PodLabels.ParseUintRoundTrip | pkg/helper/pod.go:74-84 | a request label is read back from its decimal text exactly when the number fits 64 bits |
| PodLabels.ParseUintReads | pkg/helper/pod.go:79-82 | what is read at all: the decimal texts of 64-bit numbers, with any leading zeros |
| PodLabels.RequestLabelReads | pkg/helper/pod.go:74-84 | a request label yields its number, or the default when that is too large |
| PodLabels.NoRequestLabel | pkg/helper/pod.go:74-84 | a label that is missing, empty or not made of digits yields the default |
| Classifier.SetInWords | pkg/podmanager/resource_controller.go:286-314 | which label texts put a pod into which service and set |
| Classifier.ArmInWords | pkg/podmanager/resource_controller.go:301-559 | which arm a pod takes, by the texts of its state and endpoint labels and by whether some container is not ready |
| Classifier.ClassifiedDemand | pkg/podmanager/resource_controller.go:382-577 | what classification adds to the LC total is the demand read off the pod's labels, and nothing is ever added to the MIX total |
| Classifier.RequestIsExact | pkg/podmanager/resource_controller.go:316-317 | a request label of `n` millicores asks for `100 n` microseconds per period while that fits 64 bits |
| Classifier.RequestByDefault | pkg/podmanager/resource_controller.go:316-317 | without a label made of digits a pod asks for three cores |
| NodeTick.MixDemandIsZero | pkg/podmanager/resource_controller.go:382-577 | on every node and for every pod list the MIX total is zero |
| TickProjection.TickProjects | pkg/podmanager/resource_controller.go:277-649 | whatever else is listed, a tick does to a pod what it would do to it alone, given the totals |
| TickProjection.LcTotalIsDemand | pkg/podmanager/resource_controller.go:277-577 | classifying and then summing yields the label-level demand of the listed pods |
| TickProjection.LcCoresOfTick | pkg/podmanager/resource_controller.go:564-583 | the LC core count is that demand, capped at the node and rounded up |
| TickProjection.NoCpusetCallIsRefused | pkg/podmanager/resource_controller.go:616-645 | no core count passed on exceeds the node, and the core subtraction never wraps |
| PodHistory.TurnWritesTarget | pkg/podmanager/resource_controller.go:585-645 | a turn writes the cores of the pod's set exactly when the totals moved, the write succeeds and the set has cores, and otherwise leaves the cpuset as it was |
| PodHistory.SkippedWritesAreStillRight | pkg/podmanager/resource_controller.go:585-648 | at every turn a pod holds the list of the last turn that wrote it, or its initial one; exactly when that is what its present set is entitled to |
| PodHistory.StayingPutIsRight | pkg/podmanager/resource_controller.go:585-648 | a pod written when the totals last moved and now in the same set holds what an unconditional rewrite would give it |
| PodHistory.ChangingSetsKeepsTheList | pkg/podmanager/resource_controller.go:585-648 | a pod written when the totals last moved and since in another set holds the right list if and only if the two sets coincide |
| PodHistory.UnwrittenKeepsItsList | pkg/podmanager/resource_controller.go:585-648 | a pod not written when the totals last moved keeps the list it had |
| PodScenarios.LateJoinerKeepsItsList | pkg/podmanager/resource_controller.go:585-594 | a history in which an LC pod joins after the last move and holds any list it came with |
| PodScenarios.DemotedPodKeepsLcCores | pkg/podmanager/resource_controller.go:543-559 | a history in which a pod that stops being ready is placed with best effort and holds the LC cores |
| PodScenarios.FailedWriteIsNotRepeated | pkg/podmanager/resource_controller.go:585-594 | a history in which a write fails as the totals move and is not made again |
| PodHistory.WhenSetsCoincide | pkg/podmanager/resource_controller.go:595-623 | which two sets have the same cores, in terms of the totals: LC and BE only on a fully demanded node of one core |
| PodHistory.WrittenSetsSplitNode | pkg/podmanager/resource_controller.go:585-645 | after a move the BE pod's list is everything from the end of the demand, or the last three percent of the cores; with demand the LC pod's is the cores demanded, and the lists cover the node and overlap exactly when demand runs into those three percent; without demand the LC pod keeps its list and BE gets the whole node |
| ZeroDemand.NappingPodSharesItsCores | pkg/podmanager/resource_controller.go:486-499 | a legal run with only successful writes after which an LC pod without demand holds three cores and a BE pod all four |
| PodHistory.WhenATurnDecides | pkg/podmanager/resource_controller.go:282-397 | exactly when a turn decides on a pod, in the texts of its labels |
| PodHistory.WhatATurnRemembers | pkg/podmanager/resource_controller.go:284-368 | exactly when a turn leaves a record, and whether that is ready to be acted on |
| PodHistory.WhatATurnAsks | pkg/podmanager/resource_controller.go:382-559 | the set, CPU state and memory limit a turn asks for, in the texts of the pod's labels |
| PodHistory.WhoHoldsLcCores | pkg/podmanager/resource_controller.go:382-559 | exactly which pods are placed on the LC, BE and MIX cores, in the texts of their labels and the readiness of their containers |
| PodHistory.WhereBestEffortGoes | pkg/podmanager/resource_controller.go:305-314 | best-effort pods are placed with best effort, also those of the MIX set, and others not at all |
| PodHistory.EndpointGate | pkg/podmanager/server.go:297-334 | which CPU state a deciding turn leaves for the endpoint loop, whether or not its kernel writes succeed |
| PodHistory.GateAfterHistory | pkg/podmanager/server.go:328-337 | after any number of turns the state a running pod's endpoint waits for is set if and only if the last turn that acted on the pod found it ready and running outside MIX |
| PodHistory.MixPodNeverOpensGate | pkg/podmanager/server.go:328-337 | a pod in the MIX set whenever it is listed never opens that gate |
| PodHistory.OneTurnHeals | pkg/podmanager/resource_controller.go:172-183 | one acted turn lifts a wrong `cpu.max` unless the shadow hid it, and then the next turn rereads it |
| PodHistory.QuotaHeals | pkg/podmanager/resource_controller.go:370-380 | after any failures, two acted turns with working writes lift `cpu.max`, for good |
| MemoryHistory.TurnKeepsCoherence | pkg/podmanager/resource_controller.go:185-207 | a turn keeps the memory shadow unset or true; the kernel ends at the request, or the write failed and will be made again |
| MemoryHistory.ShadowIsCoherent | pkg/podmanager/resource_controller.go:69-73 | in every history the memory shadow is unset or true |
| MemoryHistory.WhenShadowIsRight | pkg/podmanager/resource_controller.go:185-207 | over any stretch of turns from any state the shadow is right in the end if and only if it was at first or a turn asked for something else and got its write through |
| MemoryHistory.ReplacementAndShadow | pkg/podmanager/resource_controller.go:69-73 | the same from a history on whose pod is replaced under its record: if and only if the shadow was unset, the new pod came with the old value, or there was such a turn |
| MemoryHistory.IncoherentShadowPersists | pkg/podmanager/resource_controller.go:185-207 | while the requests repeat what the shadow remembers, the new pod keeps its own `memory.high` |
| PodScenarios.ReplacementMisleads | pkg/podmanager/resource_controller.go:185-207 | a history and a replacement after which a running pod keeps any `memory.high` of its own although every write succeeds |
| MemoryHistory.MemoryIsLastRequest | pkg/podmanager/resource_controller.go:185-207 | in every history `memory.high` is what the last turn asked for that acted with a working write, or the initial value |
| MemoryHistory.UnmanagedStaysReclaimed | pkg/podmanager/resource_controller.go:585-633 | a pod with a cpuset label of its own that was reclaimed keeps `memory.high` zero while it runs |
| PodScenarios.AwakePodStaysReclaimed | pkg/podmanager/resource_controller.go:501-524 | a history in which such a pod naps, is reclaimed, and runs with `memory.high` zero |
| FeedbackHistory.FeedbackIsScalingRun | pkg/podmanager/resource_controller.go:345-467 | in every history a record's quota feedback is the run of `Scaling`, from the record's creation, over the samples, quotas and zero-target calls of exactly its own turns; its margin is the worst stretch, and the sum, of the excesses in that run |
| FeedbackHistory.MarginNeverFalls | pkg/podmanager/resource_controller.go:98-119 | while a record lives its margin never comes down |
| FeedbackHistory.WhenATurnRecalculates | pkg/podmanager/resource_controller.go:357-467 | a turn that feeds the windows samples once and calls the feedback exactly when the pod is outside MIX, ready, and running or at full speed |
| FeedbackHistory.WhatQuotasATurnSees | pkg/podmanager/resource_controller.go:370-380 | a record without a last quota reads the kernel's, or takes the largest number when it cannot; a turn that acts shifts it and leaves unlimited |
| PodHistory.ReclaimNeedsLongNap | pkg/podmanager/resource_controller.go:501-524 | memory is reclaimed only after more than three seconds in which the same record took the long-nap-down arm or none |
| PodHistory.LongNapIsReclaimed | pkg/podmanager/resource_controller.go:501-524 | with a monotone clock, such a nap that still goes on is reclaimed |
| TickRuns.SweepIsExact | pkg/podmanager/resource_controller.go:211-223 | after a tick the metrics table holds exactly the pods that reached the lookup, none marked |
| TickRuns.TableIsExactInRuns | pkg/podmanager/resource_controller.go:277-343 | the same after every listed turn of every run |
| TickRuns.RunKeepsInvariant | pkg/podmanager/resource_controller.go:262-651 | between turns no record is marked, every record has a cgroup, and the remembered totals are sound |
| TickRuns.RunIsHistory | pkg/podmanager/resource_controller.go:262-651 | every run of the node is, for every pod, a history in the sense of `PodHistory` |
| ResourceController.PodManager.UpdatePodCPUSetFromLower | pkg/podmanager/resource.go:58-67 | writes the lowest cores, refuses a number above the node's, and for zero writes nothing and succeeds |
| ResourceController.PodManager.UpdatePodCPUSetRange | pkg/podmanager/resource.go:69-78 | writes an inclusive range, or refuses an empty one |
| ResourceController.PodManager.UpdatePodCPUSetFromUpper | pkg/podmanager/resource.go:80-90 | writes the highest cores in ascending order, refuses a number above the node's, and for zero writes nothing and succeeds |
| ResourceController.PodManager.UpdatePodCPUQuota | pkg/podmanager/resource.go:105-126 | a quota below 2^63 other than zero is written as it is; zero and anything above mean unlimited |
| ResourceController.PodManager.UpdatePodMemoryHigh | pkg/podmanager/resource.go:128-139 | sets `memory.high`, or leaves it on failure |
| ResourceController.CpusetAndUpdateCommute | pkg/podmanager/resource_controller.go:601-632 | whether the cpuset is written before or after `update` makes no difference |
| ResourceController.Controller.SwitchOnState | pkg/podmanager/resource_controller.go:399-559 | the readiness test and state switch leave the record and ask for the update of the arm taken |
| ResourceController.Controller.Update | pkg/podmanager/resource_controller.go:172-209 | the new record, CPU state and cgroup of the pod, and nothing else |
| ResourceController.Controller.CleanupMetrics | pkg/podmanager/resource_controller.go:211-223 | in any key order, keeps the marked records and unmarks them |
| ResourceController.Controller.ClassifyPods | pkg/podmanager/resource_controller.go:277-562 | the classification loop, with its window updates and feedback calls, computes the specified records, actions and lists |
| ResourceController.Controller.SumRequests | pkg/podmanager/resource_controller.go:564-577 | the summing loop computes the demand of both sets |
| ResourceController.Controller.ActOnRegion | pkg/podmanager/resource_controller.go:585-633 | a loop over the actions acts exactly on those of its set |
| ResourceController.Controller.ConfineListed | pkg/podmanager/resource_controller.go:635-645 | the best-effort loops write only cpusets of listed pods |
| ResourceController.Controller.Tick | pkg/podmanager/resource_controller.go:264-650 | a turn leaves the node and the remembered totals as the tick function says |
| CgroupPath.PathIsSliceChain | pkg/cgroup/cgroup.go:48-120 | the path is the chain of slices in which each name extends its parent's by one dash-free part, with the container's scope below |
| CgroupPath.PathInWords | pkg/cgroup/cgroup.go:48-120 | the whole path as text: the fixed path of the API's class name, then the group's slice, the pod's slice and the container's scope |
| CgroupPath.ClassPathsAreFixed | pkg/cgroup/cgroup.go:149-157 | everything of a class lies below the fixed path from which the class itself is loaded, which is the path the builder gives for the class alone |
| CgroupPath.PathDecodes | pkg/cgroup/cgroup.go:48-120 | QoS class, group, uid and container id are read back from every path, up to the normal form |
| CgroupPath.PathsCoincide | pkg/cgroup/cgroup.go:48-120 | two identities, with or without a pod, share a path if and only if they have the same slices and container, and if and only if they have the same normal form |
| CgroupPath.GroupCollidesWithPod | pkg/cgroup/cgroup.go:126-148 | a container group called `pod` and then a uid has the path of the pod with that uid |
| CgroupPath.GroupCollidesWithClass | pkg/cgroup/cgroup.go:51-79 | a guaranteed container group named like a QoS class has the paths of that class |
| CgroupPath.PathRoundTrip | pkg/cgroup/cgroup.go:48-120 | the path determines its identity if and only if that is plain: a known QoS class, no underscore in group and uid, no guaranteed group named like a QoS class, no group without a pod named like a pod's slice |

## Left out

- Scaling.CpuMetrics.Observe: asks for a positive sample interval, because the source divides by it. Nothing in the source rules out a shorter one: its timer spaces whole turns of the loop, and a pod may be read late in one turn and early in the next.
- ResourceController.PodManager.UpdatePodCPUSetRange: asks for an end below the largest word, on which the source's loop would not stop; `MixRangeUnderWraparound` shows that the tick never asks for it.
- ResourceController.Controller.Tick: holds the per-pod records and their windows as values in its map, so sharing of one record through several pointers is not captured; the same feedback on an object that is updated in place is `Scaling.CpuMetrics`.
- CgroupPath.PathRoundTrip: asks for an identity without slashes, which Kubernetes label values and uids never contain; `Text.JoinPath` itself is modelled for all names.
- Sample.FixLengthSample.Max: agrees with the true maximum only for values of at least -2^63, as in the source.
- MemoryHistory.ShadowIsCoherent: holds while no pod is replaced by another of the same name under a surviving record; `ReplacementAndShadow` has the exact condition otherwise.
- gonum's deviation is a parameter that is NaN or non-negative; the result of a cast to `uint64` that does not fit is a parameter too.
- Rounding of IEEE floats, and the order of float additions.
- How the kernel itself prints a cpuset: the model keeps the text last written to it.
- A swiftlet that restarts with an older cache than it had: `BackwardCacheIsUnsafe` shows what an older cache does.
- Deletion of pods in the label protocol; a deleted pod simply has no further steps.
- Convergence of controllers that never see current labels: with old lists only safety holds, and the exact overshoot condition.
- Creation and ownership of deployments and services, status updates, events and work queues: no label is written there.
- `pkg/podmanager/server.go` beyond the CPU state its endpoint loop waits for: the three pod maps are one map here, and IPVS weights are left out.
- The unused fields `PrevState`, `PrevPodStats` and `Timestamp` of a record: counter differences and the interval between readings are what a tick sees.
- HTTP handlers, metrics printing, command wiring, generated clients, `memcontroller.go` and `netscaler.go`: they add no hard property.
- The swiftlet's cgroup string helpers, which only feed log lines, and the parsing of container ids.
