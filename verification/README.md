# TiFlash autoscaler: a verified model

The autoscaler moves Kubernetes pods between a pool of warm pods and tenants, keeps a sliding window of
samples per pod, and decides from those windows how many pods a tenant should have and when to pause it.
This project models four parts of it and proves what they are for.

- **Ownership and lifecycle** (`meta_spec`, `meta_moves`, `protocol`, `ownership`, `lifecycle`, `requests`,
  `accounting`, `replicas`, `supervision`, `startup`, `resync`, `revival`, `deletions`). `MetaSpec` has one function per critical section under
  `c.mu`, on plain values. `Protocol` is the controller as a state machine: every critical section is one step, and every remote
  reply, Kubernetes event, supervisor answer and CloneSet answer is an input of a step. The main theorems are
  about every state of every run of it.
- **The same bookkeeping in place** (`tenant_desc`, `meta_objects`, `auto_scale_meta`). `PodDesc`, `TenantDesc` and
  `AutoScaleMeta` are classes whose methods update maps, lists and back-pointers of shared objects, as the
  program does. Each method is proved to take the ghost value `M` from its old value to the `MetaSpec` function
  of it, so whatever is proved about those functions holds of the objects. Whole additions and removals are proved to
  end where the protocol's begin, replies and finish end.
- **The pool and its CloneSet** (`warm_rounds`, `cluster`): a round of `DoPodsWarm`, the two retried updates, and
  the rounds' fixed point.
- **Windows and decisions** (`time_series`, `series_container`, `auto_pause`, `scale_rule`): the window as a
  function of the whole history of samples, the incremental statistics, the automatic pause, and the scaling
  rule with its exact condition for not oscillating.

`dafny verify dfyconfig.toml` checks everything.

## Assumptions

- Kubernetes never gives a pod the name of an earlier pod (`Protocol.Enabled`, the case of `PodEvent`).
- Tenant names are not empty; the HTTP handlers refuse empty ones (autoscale/http_server.go:125). A supervisor may
  name any tenant, including none.
- A scan's comparison and its correction (autoscale/meta.go:157-164) are one step. The program reads the old tenant
  before it takes the lock, so nothing is claimed about interleavings inside that window.
- Startup finishes its scan before anything else runs (autoscale/cluster.go:875-887).
- The CloneSet is written by this controller only, and an update is committed or fails without effect.
- `float64` is read as `real`: nothing is said about rounding. `int`, `int32` and `int64` are unbounded integers.

## Findings

- An overloaded tenant below its maximum does not always grow, although the repository's test expects it: the
  rounding needs a margin of 0.01 pods (`ScaleRule.OverloadCanStall`, with 7.95 busy cores on a pod of eight;
  `ScaleRule.OneDecision` gives the exact condition).
- The rule can oscillate. It never reverses itself, for any load and limits, if and only if the upper threshold is at
  least twice the lower one (`ScaleRule.StableIff`); with the test's thresholds 0.6 and 0.8 a tenant can alternate
  for ever (`ScaleRule.PingPong`).
- A container can hold a pod that Kubernetes has deleted. Four steps file pods without asking whether they are still
  registered: a successful call (autoscale/meta.go:1287-1291, 1414-1420), a correction (autoscale/meta.go:1145-1203), a
  delayed return (autoscale/meta.go:1325-1335) and the revert of a failed shrink (autoscale/meta.go:593-597). A step puts
  a deleted pod into a container if and only if it is one of these, its pod is not registered, and, for a correction,
  the tenant it names has a container
  (`Revival.RevivesIff`; over runs `Revival.GhostFreeUntilRevival`), and all four are reached from the start
  (`Revival.EveryWayHappens`).
- After a successful removal the deletion list is reset only on the returned copy; the cached copy keeps naming the
  deleted pods, and the next addition sends those names again (`Cluster.ClusterManager.RemoveThenAdd`). With the cached
  and the server's list alike, an addition names no pod if and only if the list was empty before
  (`Cluster.ClusterManager.AddNewPods`). It does no harm: the names are always of pods given up once
  (`Cluster.ClusterManager.RemovePods`), and from that commit to the end of the run such a pod is in no container,
  gone or not (`Deletions.DeletionsAreSafe`).

## Model

| member | source | states |
|---|---|---|
| `ScaleRule.ConfiguredRangeIsSane` | autoscale/meta.go:245-264 | as many pods as whole times eight cores fit into the minimum and the maximum, at least one, and never an empty range |
| `ScaleRule.OneDecision` | autoscale/scale_rule.go:33-118 | inside the band no change; outside it the answer is in range and in direction; overload grows exactly below the maximum and above the rounding margin, underload shrinks exactly above the minimum |
| `ScaleRule.AboveTheRange` | autoscale/scale_rule.go:60-117 | a tenant above a lowered maximum drops to it at once under overload and shrinks under underload |
| `ScaleRule.BelowTheRange` | autoscale/scale_rule.go:60-117 | a tenant below a raised minimum is lifted to it under underload and never shrunk under overload |
| `ScaleRule.DegenerateBandsDoNothing` | autoscale/scale_rule.go:38-58 | thresholds that are equal, crossed or cancel out change nothing |
| `ScaleRule.DefensiveCasesAreDead` | autoscale/scale_rule.go:84-102 | the guards of case#2 and case#4 never fire |
| `ScaleRule.GrowthFallbackIsDead` | autoscale/scale_rule.go:88-94 | with upper at least twice lower, case#3 never fires: the rounded-up count is never underloaded |
| `ScaleRule.OverloadCanStall` | autoscale/scale_rule_test.go:159-216 | an overloaded tenant below its maximum that stays as it is, against the test's expectation |
| `ScaleRule.GrowthTarget` | autoscale/scale_rule.go:82-97 | a growth goes to the count that carries the load nearest to the middle of the band, capped by the maximum, or by one pod when that count would be underloaded |
| `ScaleRule.ShrinkTarget` | autoscale/scale_rule.go:98-113 | a shrink goes to the count that carries the load nearest to the middle of the band, floored by the minimum, or by one pod when that count would be overloaded |
| `ScaleRule.CandidateRounds` | autoscale/scale_rule.go:64-71 | next to the present count the rounding goes to the next pod with a margin of 0.01 upwards, elsewhere to the nearest number, and never below one |
| `ScaleRule.OverloadSettlesAtOnce` | autoscale/scale_rule.go:82-97 | with upper at least twice lower, one decision settles an overloaded tenant: no later round under the same load moves it |
| `ScaleRule.ReversesIff` | autoscale/scale_rule.go:33-118 | for any thresholds, exactly which loads make the next decision undo part of this one |
| `ScaleRule.WideBandIsStable` | autoscale/scale_rule.go:33-118 | with upper at least twice lower, the next decision under the same load never reverses a resize |
| `ScaleRule.NarrowBandFlaps` | autoscale/scale_rule.go:33-118 | every narrower band has a load that makes one pod grow and shrink back |
| `ScaleRule.StableIff` | autoscale/scale_rule.go:33-118 | no configuration and load ever reverses if and only if upper is at least twice lower |
| `ScaleRule.DescentSettles` | autoscale/scale_rule.go:33-118 | after a first shrink no round raises the count, and it has settled within n - min rounds |
| `ScaleRule.ClimbSettles` | autoscale/scale_rule.go:33-118 | after a first growth no round lowers the count, and it has settled within max - n rounds |
| `ScaleRule.Converges` | autoscale/scale_rule.go:33-118 | from any legal count a constant load settles within max - min rounds, and every round on the way moves in the direction of the first |
| `ScaleRule.SettledIff` | autoscale/scale_rule.go:33-118 | exactly where a count stays for ever: in the band, at a limit, or overloaded inside the margin |
| `ScaleRule.PingPong` | autoscale/scale_rule_test.go:159-166 | with thresholds 0.6 and 0.8 and eight busy cores a tenant alternates between one pod and two for ever |
| `TimeSeries.AcceptsRunningMaxima` | autoscale/timeseries.go:447-459 | the samples accepted are the strict running maxima of those offered, and max_time is the newest of them |
| `TimeSeries.WindowIsSuffix` | autoscale/timeseries.go:357-375 | after any inserts and interval changes the window is the suffix of the accepted history at the running maximum of the cut points |
| `TimeSeries.LongestSuffix` | autoscale/timeseries.go:357-375 | with one interval throughout, that is the longest suffix with at most one sample for every ten seconds and none an interval old, and it is not empty |
| `TimeSeries.EmptyIff` | autoscale/timeseries.go:357-375 | the window is empty exactly when nothing was accepted or the last accepted sample came with a non-positive interval |
| `TimeSeries.EvictStopsAt` | autoscale/timeseries.go:365-374 | evicting stops at the first suffix that is short enough and young enough |
| `TimeSeries.CapOf` | autoscale/timeseries.go:115-117 | one sample for every whole ten seconds of the interval, and at least one |
| `TimeSeries.StatSumsValues` | autoscale/timeseries.go:192-220 | a statistic is the sum and the number of the retained values at its index |
| `TimeSeries.AverageBetween` | autoscale/timeseries.go:177-182 | samples between two bounds have an average between them |
| `TimeSeries.AddAll` | autoscale/timeseries.go:206-211 | one sample per value is added to the sums and counts |
| `TimeSeries.SubAll` | autoscale/timeseries.go:197-204 | one sample per value is taken from the sums and counts |
| `TimeSeries.MergeInto` | autoscale/timeseries.go:213-220 | another pod's sums and counts are added, index by index |
| `TimeSeries.SimpleTimeSeries.ReloadCfg` | autoscale/timeseries.go:119-122 | only the interval changes, and the capacity follows it |
| `TimeSeries.SimpleTimeSeries.Append` | autoscale/timeseries.go:357-375 | the list is the eviction of the extended list, and every count and sum equals recomputation from the retained points |
| `TimeSeries.SimpleTimeSeries.TryAppend` | autoscale/timeseries.go:454-459 | a sample is appended exactly when it is newer than every accepted one; the new window is Insert of the old |
| `TimeSeries.SimpleTimeSeries.GetMinMaxTime` | autoscale/timeseries.go:347-355 | oldest retained and newest accepted time, or zeros |
| `SeriesContainer.SeriesFamily.Insert` | autoscale/timeseries.go:431-460 | the pod's window, created or reconfigured first, becomes Insert of itself; all other windows are untouched |
| `SeriesContainer.SeriesFamily.GetStatisticsOfPod` | autoscale/timeseries.go:258-275 | nothing for an unknown pod, otherwise six statistics equal to recomputation, the oldest retained and newest accepted time and the size |
| `SeriesContainer.TimeSeriesContainer.InsertWithUserCfg` | autoscale/timeseries.go:467-469 | the insert reaches the window of its own metric and leaves the other metric alone |
| `SeriesContainer.TimeSeriesContainer.ResetMetricsOfPod` | autoscale/timeseries.go:325-345 | the pod's windows are forgotten in both metrics, and no others |
| `AutoPause.ComputeStatisticsOfTenant` | autoscale/meta.go:1509-1567 | nothing for an unknown tenant; otherwise the totals over its pods, one record per pod, and a description whose extremes bound every pod and are reached by one |
| `AutoPause.DescribesOneMore` | autoscale/timeseries.go:80-102 | Init and Agg keep the extremes, the size sum and the pod count exact |
| `AutoPause.GateIsObserved` | autoscale/cluster.go:359-359 | the gate holds exactly when the pod list is not empty and every pod has two samples and one older than the interval less 30 s |
| `AutoPause.WantsAutoPause` | autoscale/cluster.go:353-370 | a pause is asked for if and only if it is on, the tenant exists, all its pods are observed, and the retained task counts of all pods together sum below one |
| `AutoPause.PausedPodsAreIdle` | autoscale/cluster.go:360-363 | with non-negative samples no retained task count of a pod of a paused tenant reaches one |
| `AutoPause.UsageForScaling` | autoscale/cluster.go:385-401 | the usage given to the rule is the mean over the pods of each pod's mean sample, and is given exactly when the tenant exists and all its pods are observed |
| `AutoPause.CpuIsSumOfMeans` | autoscale/meta.go:1545-1560 | every pod weighs the same in the CPU total, whatever its number of samples |
| `AutoPause.UsageBetween` | autoscale/cluster.go:385-391 | samples between two bounds everywhere give a usage between them |
| `AutoPause.TasksAddUp` | autoscale/meta.go:1545-1560 | the task total is the sum and the number of all retained task counts of all pods |
| `AutoPause.TasksBetween` | autoscale/meta.go:1545-1560 | every retained task count of every pod counts exactly once |
| `AutoPause.RecordDescribesPod` | autoscale/meta.go:1527-1559 | the record of a pod has its mean, its weight and its window; a pod without a window looks like an empty one a day from now |
| `Containers.TenantDesc.SetPod` | autoscale/meta.go:295-306 | the pod is filed once in map and list, which stay in agreement; its start time is kept |
| `Containers.TenantDesc.SetPodWithTenantInfo` | autoscale/meta.go:308-320 | as SetPod, with the start time given |
| `Containers.TenantDesc.RemovePod` | autoscale/meta.go:329-348 | the pod leaves map and list and its tenant is cleared; an absent pod changes nothing |
| `Containers.TenantDesc.PopOnePod` | autoscale/meta.go:350-364 | the newest pod leaves |
| `Containers.TenantDesc.PopPods` | autoscale/meta.go:366-380 | the last k pods leave newest first and are cleared, the prefix stays as it was, and the shortfall is returned |
| `Containers.TenantDesc.SortPodsAtStartUp` | autoscale/meta.go:199-208 | the list becomes a permutation ordered by start time; map and list still agree |
| `Containers.TenantDesc.GetCntOfPods` | autoscale/meta.go:288-292 | the size of the map is the length of the list |
| `Containers.TenantDesc.GetPodNames` | autoscale/meta.go:382-391 | the names in the list's order |
| `Containers.TenantDesc.SwitchState` | autoscale/meta.go:409-411 | a compare-and-swap of the state |
| `Containers.TenantDesc.IsStateCorrect` | autoscale/meta.go:449-456 | the state is wrong exactly when the tenant is paused and holds pods |
| `Containers.MapCountsList` | autoscale/meta.go:288-292 | a coherent map and list have the same number of pods |
| `Containers.SortByStart` | autoscale/meta.go:202-204 | an ordered permutation |
| `ScaleMeta.AutoScaleMeta.UpdatePod` | autoscale/meta.go:1042-1085 | a new or newly addressed pod joins the pool, counted against the pending ones; any other event changes at most the address |
| `ScaleMeta.AutoScaleMeta.PutWarmedPod` | autoscale/meta.go:636-655 | the pod joins the pool, a new one takes a pending place if there is one, and the tenant's shortfall is reset |
| `ScaleMeta.AutoScaleMeta.GetWarmedPods` | autoscale/meta.go:607-633 | exactly the oldest-first prefix leaves the pool, and the shortfall is returned and recorded |
| `ScaleMeta.AutoScaleMeta.PopPodsOf` | autoscale/meta.go:366-380 | PopPods as the bookkeeping function Pop, over shared pod objects |
| `ScaleMeta.AutoScaleMeta.RemovePodFrom` | autoscale/meta.go:329-348 | RemovePod as the bookkeeping function TakeOut |
| `ScaleMeta.AutoScaleMeta.SetPodIn` | autoscale/meta.go:295-306 | SetPod as the bookkeeping function Put |
| `ScaleMeta.AutoScaleMeta.SetPodInAt` | autoscale/meta.go:1288-1290 | the commit of a successful assignment, as PutAt |
| `ScaleMeta.AutoScaleMeta.RemovePodFromClusterWithoutLock` | autoscale/meta.go:1105-1127 | the pod leaves the container its back-pointer names and the registry |
| `ScaleMeta.AutoScaleMeta.HandleK8sDelPodEvent` | autoscale/meta.go:1454-1466 | a registered pod is unregistered, an unknown one changes nothing and is reported |
| `ScaleMeta.AutoScaleMeta.GetTenantDescOrWarmedPool` | autoscale/meta.go:1130-1142 | the container of that name, the pool for none, nothing for an unknown tenant |
| `ScaleMeta.AutoScaleMeta.CorrectedTenantDesc` | autoscale/meta.go:1159-1195 | the tenant a correction names ends up Resumed, registered on the fly outside dedicated mode |
| `ScaleMeta.AutoScaleMeta.UpdateLocalMetaPodOfTenant` | autoscale/meta.go:1145-1203 | the correction as a whole, including the wild pod of dedicated mode |
| `ScaleMeta.AutoScaleMeta.SetupTenant` | autoscale/meta.go:1474-1506 | a tenant is created once; one that exists is left alone |
| `ScaleMeta.AutoScaleMeta.AsyncPause` | autoscale/meta.go:929-944 | a pause is launched exactly for a Resumed tenant, which becomes Pausing |
| `ScaleMeta.AutoScaleMeta.AsyncResume` | autoscale/meta.go:946-966 | a resume is launched exactly for a Paused tenant, which becomes Resuming |
| `ScaleMeta.AutoScaleMeta.BeginAdd` | autoscale/meta.go:1219-1250 | the addition goes ahead exactly in the expected state, and then takes the oldest warm pods |
| `ScaleMeta.AutoScaleMeta.UndoPods` | autoscale/meta.go:1299-1308 | undone pods that still exist go back where they came from, the others are dropped |
| `ScaleMeta.AutoScaleMeta.EndAdd` | autoscale/meta.go:1297-1321 | undo, leave Resuming, and return the pods wanted and not moved |
| `ScaleMeta.AutoScaleMeta.BeginRemove` | autoscale/meta.go:1348-1384 | the removal goes ahead exactly in the expected state; a pause pops as many pods as the map counts |
| `ScaleMeta.AutoScaleMeta.EndRemove` | autoscale/meta.go:1430-1450 | undo into the tenant, and return the pods wanted and not moved |
| `ScaleMeta.AutoScaleMeta.AnswerAll` | autoscale/meta.go:1259-1295 | every call is answered once, each reply does its own commit, correction or undo entry, and the undo list is the failed calls in order |
| `ScaleMeta.AutoScaleMeta.AddPodIntoTenant` | autoscale/meta.go:1208-1322 | the whole addition with its calls answered in any order: as many pods as asked for and warm are taken, the bookkeeping becomes AfterAdd, and the result counts the pods asked for and not moved |
| `ScaleMeta.AutoScaleMeta.RemovePodFromTenant` | autoscale/meta.go:1339-1452 | the whole removal with its calls answered in any order: as many pods as asked for and held (a pause: all) are taken, the bookkeeping becomes AfterRemove, and the result counts the pods asked for and not moved |
| `ScaleMeta.AutoScaleMeta.ResizePodsOfTenant` | autoscale/meta.go:1094-1102 | a larger target adds the difference, a smaller one removes it, an equal one does nothing |
| `ScaleMeta.AutoScaleMeta.LoadPods` | autoscale/cluster.go:589-594 | every pod of the listing is updated, in order |
| `ScaleMeta.AutoScaleMeta.ExpiredPods` | autoscale/meta.go:1024-1032 | the registered pods the listing lacks, each once |
| `ScaleMeta.AutoScaleMeta.TryToRemoveExpriedPod` | autoscale/meta.go:1023-1037 | exactly those pods are unregistered |
| `ScaleMeta.AutoScaleMeta.SortTenants` | autoscale/meta.go:853-858 | every tenant's list is ordered by start time and holds what it held |
| `ScaleMeta.AutoScaleMeta.CountShortfalls` | autoscale/meta.go:546-559 | the sum of the recent shortfalls, and stale ones are forgotten |
| `ScaleMeta.AutoScaleMeta.PutBackPods` | autoscale/meta.go:593-597 | the pods of a failed shrink return to the pool |
| `MetaObjects.CorrectInSteps` | autoscale/meta.go:1145-1203 | the correction is its removal, its change of the target and its filing, in the program's order |
| `MetaObjects.DrainedOneMore` | autoscale/meta.go:612-620 | taking the head of the pool once more extends the prefix taken so far |
| `MetaSpec.LatestLeaveFirst` | autoscale/meta.go:350-380 | from a list ordered by start time, a removal takes the pods assigned latest, the very latest first |
| `MetaMoves.TakeOutMoves` | autoscale/meta.go:329-348 | removing moves one pod to no container and no other pod anywhere |
| `MetaMoves.PutWarmedMoves` | autoscale/meta.go:636-655 | returning moves one pod to the pool and no other pod anywhere |
| `MetaMoves.CorrectMoves` | autoscale/meta.go:1145-1203 | a correction moves one pod to the tenant named, or to none, and no other pod anywhere |
| `MetaMoves.UnregisterMoves` | autoscale/meta.go:1105-1127 | unregistering moves one pod to no container: the back-pointer found its owner |
| `MetaMoves.TakeWarmedMoves` | autoscale/meta.go:607-633 | taking warm pods moves exactly those pods out |
| `MetaMoves.PopMoves` | autoscale/meta.go:366-380 | popping moves exactly those pods out |
| `Ownership.StepKeeps` | autoscale/meta.go:607-655 | every step keeps the whole invariant: one holder per pod, agreeing back-pointers, duplicate-free lists, registered pods placed |
| `Ownership.BackPointerFinds` | autoscale/meta.go:1105-1123 | following tenantName leads to the container that really holds the pod |
| `Ownership.CorrectionKeeps` | autoscale/meta.go:1145-1203 | a correction keeps the invariant |
| `Ownership.EventKeeps` | autoscale/meta.go:1042-1085 | a pod event keeps the invariant |
| `Ownership.GoneKeeps` | autoscale/meta.go:1105-1127 | a deletion keeps the invariant, also while an operation holds the pod |
| `Ownership.BeginKeeps` | autoscale/meta.go:1225-1250 | taking pods into an operation keeps the invariant |
| `Ownership.RepliedKeeps` | autoscale/meta.go:1264-1293 | each of the four outcomes of a call keeps the invariant |
| `Ownership.FinishKeeps` | autoscale/meta.go:1297-1313 | undoing keeps the invariant |
| `Ownership.DelayOverKeeps` | autoscale/meta.go:1325-1335 | the delayed return keeps the invariant |
| `Ownership.ShrinkAnsweredKeeps` | autoscale/meta.go:581-598 | both ends of a shrink keep the invariant |
| `Ownership.GhostsWereInHands` | autoscale/meta.go:1287-1291 | a pod becomes a ghost only by being deleted while an operation, a delay or a shrink holds it |
| `Ownership.NeverWild` | autoscale/meta.go:1163-1202 | outside dedicated mode no correction leaves a pod without a container |
| `Ownership.ExclusiveOwnership` | autoscale/meta.go:1042-1451 | in every state of every run no pod has two holders, every registered pod with an address has one, and a held pod that is not registered is a ghost |
| `Ownership.BackPointersAreExact` | autoscale/meta.go:90-123 | in every state of every run a pod names exactly the tenant that lists it, and no list repeats a pod |
| `Supervision.ScanCorrects` | autoscale/meta.go:157-164 | while the controller runs, a scan moves a tenant's pod exactly when the supervisor contradicts the tenant or the start time: to the tenant it names, which is then Resumed, since the time it gives; to no container if that tenant cannot be served; any other answer changes nothing |
| `Supervision.SameAnswerAgain` | autoscale/meta.go:157-164 | hearing the same answer twice is hearing it once |
| `Supervision.ReplyObeyed` | autoscale/meta.go:1264-1293 | a success, a failure, a correction and a delay of a call each do what the supervisor said, with its start time |
| `Supervision.StepLists` | autoscale/meta.go:1042-1451 | which container lists a pod after any step, told by the step and by who listed it before |
| `Supervision.StepDates` | autoscale/meta.go:295-391 | only arrivals, supervisors, takings and deletions change a start time; coming back keeps it |
| `Deletions.StaysSpent` | autoscale/cluster.go:1094-1095 | no step brings back a pod that was given up, be it still there or gone |
| `Deletions.DeletionsAreSafe` | autoscale/cluster.go:1070-1101 | a pod named in a committed removal is in no container, from then to the end of every run, even after it has vanished and its name is sent again |
| `Revival.RevivesIff` | autoscale/meta.go:1145-1203 | a step puts a deleted pod into a container if and only if it is a success, a correction, a delayed return or a failed shrink of a pod that is not registered, and a correction names a tenant that has a container |
| `Revival.GhostFreeUntilRevival` | autoscale/meta.go:1286-1335 | containers hold registered pods only, all along a run, if and only if no step of it was such a revival |
| `Revival.EveryWayHappens` | autoscale/meta.go:575-600 | runs from the start that reach a revival of each of the four kinds |
| `Lifecycle.StepStates` | autoscale/meta.go:409-446 | the state of every tenant after every step |
| `Lifecycle.NeverStuck` | autoscale/meta.go:929-966 | in every state of every run a Pausing tenant has a pause before its critical section and a Resuming tenant a resume that has not returned |
| `Lifecycle.ResumeOutcome` | autoscale/meta.go:1230-1313 | a resume gives up exactly when a correction has already taken its tenant out of Resuming, and its end never leaves the tenant there |
| `Lifecycle.ResumingEnds` | autoscale/meta.go:1230-1313 | in every state of every run a Resuming tenant has a resume that goes ahead if it is queued and ends in Resumed if it runs |
| `Requests.BeginTakes` | autoscale/meta.go:1225-1250 | an operation goes ahead exactly in its state; an addition takes the oldest warm pods as asked, a removal the newest pods as asked, a pause all, and nothing else moves |
| `Requests.ResizeTakes` | autoscale/meta.go:1094-1102 | a resize of a resumed tenant takes as many pods as asked for and there are |
| `Requests.ResumeTakes` | autoscale/meta.go:946-966 | a resume of a paused tenant takes as many warm pods as asked for and there are; any other request does nothing |
| `Requests.PauseTakes` | autoscale/meta.go:929-944 | a pause of a resumed tenant takes all its pods and leaves it Paused; any other request does nothing |
| `Requests.RunningCanEnd` | autoscale/meta.go:1252-1321 | every running operation has a continuation that ends it, and a resume then has resumed its tenant |
| `Requests.TransitionsCanEnd` | autoscale/meta.go:409-446 | from every state of every run a pausing tenant can reach Paused and a resuming one Resumed |
| `Lifecycle.RunsFollowTheCycle` | autoscale/meta.go:409-446 | along every run states follow resumed, pausing, paused, resuming, resumed, with corrections into Resumed as the only shortcut |
| `Lifecycle.CorrectStates` | autoscale/meta.go:1173-1195 | a correction forces the tenant it names to Resumed and touches no other |
| `Lifecycle.PauseCommitsEmpty` | autoscale/meta.go:1355-1384 | the step that takes a tenant from Pausing to Paused leaves it without a pod |
| `Accounting.RepliesProgress` | autoscale/meta.go:1264-1293 | after any awaited replies, with deletions of held pods in between, every answered pod is where its reply sends it, every outcome is recorded, and only the deleted pods have left the registry |
| `Accounting.EventsAreSteps` | autoscale/meta.go:1264-1293 | the replies and deletions of an operation are enabled steps of the protocol |
| `Accounting.UndoCountsPods` | autoscale/meta.go:1430-1441 | undoing a removal restores exactly the pods that still exist |
| `Accounting.IsolatedAccounts` | autoscale/meta.go:1208-1451 | the count asked for (a pause: all) is taken as far as there are pods; each pod taken ends where its reply says, undone pods deleted on the way are dropped; the result counts the pods not moved; without application errors the tenant's count changes by exactly that, less the dropped pods of a removal |
| `Accounting.ResizeReaches` | autoscale/meta.go:1094-1102 | a resize whose calls all succeed brings a resumed tenant to the target, a growth as far as there are warm pods |
| `Accounting.InPlaceIsIsolated` | autoscale/meta.go:1208-1451 | what the operations do to the objects is what the protocol's begin, replies and finish do, so the accounts hold of them |
| `Replicas.StepDrift` | autoscale/meta.go:575-600 | how every step moves the difference between replicas and pending plus live pods |
| `Replicas.ReplicasAreConserved` | autoscale/meta.go:575-655 | along every orderly run from a new CloneSet, replicas are the pending pods plus the live ones and every arrival finds a pending place |
| `Startup.ScanReconciles` | autoscale/meta.go:829-852 | after the scan every pod with a settled answer is with the tenant it named, every other one still in the pool, and every named tenant is Resumed |
| `Startup.OrderDoesNotMatter` | autoscale/meta.go:839-852 | scans that heard the same answers in any order agree on places, states, members and start times |
| `MetaObjects.OthersStaySorted` | autoscale/meta.go:853-858 | sorting one tenant's list leaves the others sorted and every list's members unchanged |
| `Startup.StartupEnds` | autoscale/meta.go:853-858 | the sort that follows keeps all of it |
| `Resync.LoadPodsResyncs` | autoscale/cluster.go:580-597 | after loadPods the registered pods are exactly the listed ones, no container holds another, and loading again changes nothing |
| `Resync.ResyncedMeta` | autoscale/cluster.go:580-597 | the bookkeeping of the resynced state is that of LoadPods followed by TryToRemoveExpriedPod |
| `Resync.AddressStays` | autoscale/meta.go:1057-1083 | no step takes a pod's address away |
| `Resync.CountedOnce` | autoscale/meta.go:1042-1066 | over any run at most one event per pod is counted as the arrival of a new pod |
| `WarmRounds.SecondRoundDoesNothing` | autoscale/meta.go:545-604 | right after a committed round another one asks for nothing and changes nothing |
| `WarmRounds.WantsAreMadeUpFor` | autoscale/meta.go:607-633 | whatever the pool could give, later rounds ask for as many more pods as an operation wanted, less the shortfall it replaces |
| `WarmRounds.ReturnsAreCounted` | autoscale/meta.go:648-654 | a returned pod lowers what later rounds ask for by one and withdraws its tenant's shortfall |
| `WarmRounds.ArrivalsAreExpected` | autoscale/meta.go:640-648 | a new pod that was pending changes nothing a round would ask for; an unexpected one lowers it by one |
| `WarmRounds.RoundMeetsDemand` | autoscale/meta.go:560-600 | a gap to the soft limit plus recent unmet demand is asked for exactly; a surplus is given up as far as the pool keeps its soft limit, oldest pods first |
| `WarmRounds.FailureRestores` | autoscale/meta.go:575-600 | a failed round restores the pending count and the pool's pods, rotated |
| `WarmRounds.RoundConserves` | autoscale/meta.go:560-600 | a round changes pending and warm pods together by exactly the replicas it adds or gives up, and by nothing when it fails |
| `WarmRounds.RoundInSteps` | autoscale/meta.go:545-604 | a round is the protocol's request step followed by its answer step |
| `WarmRounds.UnmetWithout` | autoscale/meta.go:550-556 | the sum of shortfalls does not depend on the order of the map iteration |
| `WarmRounds.RecentWithout` | autoscale/meta.go:550-556 | a shortfall counts for 300 seconds |
| `WarmRounds.StepRecords` | autoscale/meta.go:607-655 | after any step, which shortfalls are recorded: an addition records its own, a pod back from a tenant clears that tenant's, nothing else counts |
| `Cluster.CloneSetServer.Update` | autoscale/cluster.go:1046-1046 | committed, or refused without effect |
| `Cluster.ClusterManager.CreateCloneSet` | autoscale/cluster.go:638-642 | every replica of a new CloneSet is pending |
| `Cluster.ClusterManager.HandleCloneSetApiError` | autoscale/cluster.go:1017-1030 | the cache becomes the server's copy, or stays exactly when the fetch failed |
| `Cluster.ClusterManager.AddNewPods` | autoscale/cluster.go:1033-1067 | it gives up exactly when a refetch failed or the update and every retry were refused; replicas change by the delta and one commit on success, by nothing on failure, the cache agrees, and the deletion list sent is the cached one or the server's; with both alike it is empty exactly when it was empty before |
| `Cluster.ClusterManager.RemovePods` | autoscale/cluster.go:1070-1101 | as AddNewPods for the pods named, which become the deletion list of cache and server; deletion lists only ever name pods given up |
| `Cluster.ClusterManager.RemoveThenAdd` | autoscale/cluster.go:1033-1101 | an addition right after a removal sends the removed names a second time, and both succeed unless the server refuses too often or a fetch fails |
| `Cluster.ClusterManager.DoPodsWarm` | autoscale/meta.go:545-604 | a round leaves pool, pending count and replicas exactly as AfterRound and Asked say, keeps replicas less pending and warm pods, and fails exactly when a fetch failed or the update and both retries were refused |
| `Cluster.ClusterManager.GiveUpPods` | autoscale/meta.go:583-598 | the shrink of a round, with its revert, which happens exactly when a fetch failed or the update and both retries were refused |
| `Cluster.ClusterManager.Resume` | autoscale/cluster.go:499-507 | reports success exactly for a paused tenant, and then the whole awaited addition is done |
| `Cluster.ClusterManager.CheckState` | autoscale/cluster.go:323-345 | a disabled tenant is paused, a paused one that holds pods is resumed, only an enabled Resumed one is analyzed |

## Left out

- gRPC, HTTP, SNS, Prometheus and Kubernetes clients: replies, samples, listings and events are inputs.
- The CloneSet template, annotations, image patching and the polling of the fixed pool: no algorithm.
- Logging, metrics, dumps, sleeps and clock reads: `now` is a parameter.
- Locks and deadlocks: a section under `c.mu` is one step; `muOfGrpc` and `isStateChanging` only let a scan skip a pod,
  and a skipped scan is a scan whose answer never comes.
- The windows that a commit resets (SeriesContainer.TimeSeriesContainer.ResetMetricsOfPod) are not part of the protocol's state, which holds pods and tenants only.
- DoPodsWarm reads and adds to the pending count in two moments; they are one step here, and the growth asked for may be any number.
- TimeSeries.SimpleTimeSeries: the linked list and the array of statistics are sequence fields that are reassigned; updates through a shared slice are not captured.
- TimeSeries.SimpleTimeSeries.Append: requires at most six values, because the program panics on more.
- AutoPause.ComputeStatisticsOfTenant: the windows of all pods are read in one state, although the program locks the series once per pod.
- ScaleRule: the tenant is always given; the program answers a missing one with no change (autoscale/scale_rule.go:34-37).
- Cluster.ClusterManager.AddNewPods: does not model the wrap-around of int32 replica counts.
- Cluster.ClusterManager.Resume: no other operation interleaves with it; Lifecycle.ResumeOutcome and Lifecycle.ResumingEnds cover any interleaving.
- Accounting.IsolatedAccounts: only deletions of pods the operation holds interleave with it; the invariants of the protocol cover the rest.
- ScaleMeta.AutoScaleMeta: the embedded pool's fields are fields of the class.
- ScaleMeta.AutoScaleMeta.AddPodIntoTenant: its calls return in any order, but nothing else happens in between; the same holds for RemovePodFromTenant.
- ScaleMeta.AutoScaleMeta.RemovePodFromTenant: as AddPodIntoTenant; the delayed return of a pod that is being unassigned is a step of the protocol.
- ScaleMeta.AutoScaleMeta.UpdatePod: the branch for a registered pod without a name is left out, because a pod is registered under its name.
- Containers.SortByStart: stands for the library's sort, which promises order and nothing about ties.
- Configuration reloads, the getters of tenants and their limits, topology queries and the mock tenants: they copy fields and decide nothing.
- Starting and stopping the analysis loops: one round of a loop is CheckState and what follows it; which goroutine runs it is not modelled.
