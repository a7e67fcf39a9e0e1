// Tenant-wide statistics (ComputeStatisticsOfTenant in autoscale/meta.go) and the two gates that read
// them in the analysis loop (autoscale/cluster.go).
module AutoPause {
  import opened Numbers
  import opened TimeSeries
  import opened SeriesContainer
  import opened Wrappers

  // Extremes of the pods' descriptions, and the sum of their sizes.
  datatype TenantSeriesDesc = TenantSeriesDesc(
    minOfMinTime: int, maxOfMinTime: int, minOfMaxTime: int, maxOfMaxTime: int,
    sumOfSize: int, maxOfSize: int, minOfSize: int, podCnt: int)
  {
    function Agg(o: PodSeriesDesc): TenantSeriesDesc {
      TenantSeriesDesc(
        MinInt(minOfMinTime, o.minTime), MaxInt(maxOfMinTime, o.minTime),
        MinInt(minOfMaxTime, o.maxTime), MaxInt(maxOfMaxTime, o.maxTime),
        sumOfSize + o.size, MaxInt(maxOfSize, o.size), MinInt(minOfSize, o.size), podCnt + 1)
    }
  }

  function Init(o: PodSeriesDesc): TenantSeriesDesc {
    TenantSeriesDesc(o.minTime, o.minTime, o.maxTime, o.maxTime, o.size, o.size, o.size, 1)
  }

  const NOTHING := TenantSeriesDesc(0, 0, 0, 0, 0, 0, 0, 0)

  // A pod without a series counts as one empty window a day in the future.
  ghost function DescOfPod(windows: map<string, Window>, pod: string, now: int): PodSeriesDesc {
    if pod in windows then DescOf(windows[pod]) else PodSeriesDesc(now + 86400, now + 86400, 0)
  }

  // What one pod adds at an index: its sums for task counts, its average with weight one for CPU.
  ghost function Contribution(windows: map<string, Window>, pod: string, topic: MetricsTopic, i: nat): AvgSigma {
    var s := if pod in windows then StatOf(windows[pod].points, i) else AvgSigma(0.0, 0);
    if topic == Cpu then AvgSigma(s.Avg(), 1) else s
  }

  ghost function Total(windows: map<string, Window>, pods: seq<string>, topic: MetricsTopic, i: nat): AvgSigma {
    if pods == [] then AvgSigma(0.0, 0)
    else
      var last := |pods| - 1;
      var rest := Total(windows, pods[..last], topic, i);
      var c := Contribution(windows, pods[last], topic, i);
      AvgSigma(rest.sum + c.sum, rest.cnt + c.cnt)
  }

  // Each extreme bounds every pod's description and is reached by one; the sizes add up.
  ghost predicate Describes(d: TenantSeriesDesc, windows: map<string, Window>, pods: seq<string>, now: int) {
    && d.podCnt == |pods|
    && d.sumOfSize == SumOfSizes(windows, pods, now)
    && (forall p :: p in pods ==>
          var o := DescOfPod(windows, p, now);
          && d.minOfMinTime <= o.minTime <= d.maxOfMinTime
          && d.minOfMaxTime <= o.maxTime <= d.maxOfMaxTime
          && d.minOfSize <= o.size <= d.maxOfSize)
    && (pods != [] ==>
          && (exists p :: p in pods && DescOfPod(windows, p, now).minTime == d.minOfMinTime)
          && (exists p :: p in pods && DescOfPod(windows, p, now).minTime == d.maxOfMinTime)
          && (exists p :: p in pods && DescOfPod(windows, p, now).maxTime == d.minOfMaxTime)
          && (exists p :: p in pods && DescOfPod(windows, p, now).maxTime == d.maxOfMaxTime)
          && (exists p :: p in pods && DescOfPod(windows, p, now).size == d.minOfSize)
          && (exists p :: p in pods && DescOfPod(windows, p, now).size == d.maxOfSize))
  }

  ghost function SumOfSizes(windows: map<string, Window>, pods: seq<string>, now: int): int {
    if pods == [] then 0
    else SumOfSizes(windows, pods[..|pods| - 1], now) + DescOfPod(windows, pods[|pods| - 1], now).size
  }

  lemma DescribesOneMore(d: TenantSeriesDesc, windows: map<string, Window>, pods: seq<string>, pod: string, now: int)
    requires Describes(d, windows, pods, now)
    ensures var o := DescOfPod(windows, pod, now);
            Describes(if d.podCnt == 0 then Init(o) else d.Agg(o), windows, pods + [pod], now)
  {
    hide DescOfPod;
    var all := pods + [pod];
    var o := DescOfPod(windows, pod, now);
    var d2 := if d.podCnt == 0 then Init(o) else d.Agg(o);
    assert all[..|pods|] == pods;
    assert pod in all && forall p :: p in all <==> p in pods || p == pod;
    if pods == [] { assert d.podCnt == 0; }
    assert d2.podCnt == |all| && d2.sumOfSize == SumOfSizes(windows, all, now);
  }

  lemma TotalOneMore(windows: map<string, Window>, pods: seq<string>, pod: string, topic: MetricsTopic, i: nat)
    ensures var rest := Total(windows, pods, topic, i);
            var c := Contribution(windows, pod, topic, i);
            Total(windows, pods + [pod], topic, i) == AvgSigma(rest.sum + c.sum, rest.cnt + c.cnt)
  {
    assert (pods + [pod])[..|pods|] == pods;
  }

  method EvenWeights(stats: seq<AvgSigma>) returns (r: seq<AvgSigma>)
    ensures r == seq(|stats|, i requires 0 <= i < |stats| => AvgSigma(stats[i].Avg(), 1))
  {
    r := stats;
    for i := 0 to |stats|
      invariant |r| == |stats|
      invariant forall j :: 0 <= j < i ==> r[j] == AvgSigma(stats[j].Avg(), 1)
      invariant forall j :: i <= j < |stats| ==> r[j] == stats[j]
    {
      r := r[i := AvgSigma(r[i].Avg(), 1)];
    }
  }

  // One pod's part: its statistics as they enter the tenant's, and its description.
  method StatisticsOfPod(tsc: SeriesFamily, pod: string, topic: MetricsTopic, now: int)
    returns (stats: seq<AvgSigma>, desc: PodSeriesDesc)
    requires tsc.Valid()
    ensures |stats| == CAPACITY_OF_STATISTICS
    ensures forall i :: 0 <= i < |stats| ==> stats[i] == Contribution(tsc.Windows, pod, topic, i)
    ensures desc == DescOfPod(tsc.Windows, pod, now)
  {
    var got := tsc.GetStatisticsOfPod(pod);
    if got.None? {
      stats := seq(CAPACITY_OF_STATISTICS, _ => AvgSigma(0.0, 0));
      desc := PodSeriesDesc(now + 86400, now + 86400, 0);
    } else {
      stats, desc := got.value.0, got.value.1;
    }
    if topic == Cpu {
      stats := EvenWeights(stats);
    }
  }

  // What is returned per pod: the average and the count of the first value, and the window's description.
  datatype PodRecord = PodRecord(avg: real, cnt: int, desc: PodSeriesDesc)

  ghost function RecordOf(windows: map<string, Window>, pod: string, topic: MetricsTopic, now: int): PodRecord {
    var c := Contribution(windows, pod, topic, 0);
    PodRecord(c.Avg(), c.cnt, DescOfPod(windows, pod, now))
  }

  ghost predicate RecordsAll(records: map<string, PodRecord>, windows: map<string, Window>, pods: seq<string>,
                             topic: MetricsTopic, now: int) {
    && (forall p :: p in records <==> p in pods)
    && (forall p :: p in records ==> records[p] == RecordOf(windows, p, topic, now))
  }

  lemma RecordsOneMore(records: map<string, PodRecord>, windows: map<string, Window>, pods: seq<string>, pod: string,
                       topic: MetricsTopic, now: int)
    requires RecordsAll(records, windows, pods, topic, now)
    ensures RecordsAll(records[pod := RecordOf(windows, pod, topic, now)], windows, pods + [pod], topic, now)
  {
    hide RecordOf;
  }

  method StatisticsOfPods(tsc: SeriesFamily, pods: seq<string>, topic: MetricsTopic, now: int)
    returns (ret: seq<AvgSigma>, records: map<string, PodRecord>, desc: TenantSeriesDesc)
    requires tsc.Valid()
    ensures |ret| == CAPACITY_OF_STATISTICS
    ensures forall i :: 0 <= i < |ret| ==> ret[i] == Total(tsc.Windows, pods, topic, i)
    ensures RecordsAll(records, tsc.Windows, pods, topic, now)
    ensures Describes(desc, tsc.Windows, pods, now)
    ensures pods == [] ==> desc == NOTHING
  {
    hide SeriesFamily.Valid, Describes, Contribution, DescOfPod, RecordsAll;
    ret := seq(CAPACITY_OF_STATISTICS, _ => AvgSigma(0.0, 0));
    records, desc := map[], NOTHING;
    NothingDescribesNone(tsc.Windows, topic, now);
    for k := 0 to |pods|
      invariant |ret| == CAPACITY_OF_STATISTICS
      invariant forall i :: 0 <= i < |ret| ==> ret[i] == Total(tsc.Windows, pods[..k], topic, i)
      invariant RecordsAll(records, tsc.Windows, pods[..k], topic, now)
      invariant Describes(desc, tsc.Windows, pods[..k], now)
      invariant k == 0 ==> desc == NOTHING
    {
      var stats, d := StatisticsOfPod(tsc, pods[k], topic, now);
      DescribesOneMore(desc, tsc.Windows, pods[..k], pods[k], now);
      RecordsOneMore(records, tsc.Windows, pods[..k], pods[k], topic, now);
      desc := if desc.podCnt == 0 then Init(d) else desc.Agg(d);
      records := records[pods[k] := PodRecord(stats[0].Avg(), stats[0].cnt, d)];
      forall i | 0 <= i < |ret| ensures Total(tsc.Windows, pods[..k] + [pods[k]], topic, i) ==
                                          AvgSigma(ret[i].sum + stats[i].sum, ret[i].cnt + stats[i].cnt) {
        TotalOneMore(tsc.Windows, pods[..k], pods[k], topic, i);
      }
      assert pods[..k + 1] == pods[..k] + [pods[k]];
      ret := MergeInto(ret, stats);
    }
    assert pods[..|pods|] == pods;
  }

  datatype TenantStatistics = TenantStatistics(
    totals: seq<AvgSigma>, records: map<string, PodRecord>, desc: TenantSeriesDesc)

  ghost predicate StatisticsAre(r: TenantStatistics, windows: map<string, Window>, pods: seq<string>,
                                topic: MetricsTopic, now: int) {
    && |r.totals| == CAPACITY_OF_STATISTICS
    && (forall i :: 0 <= i < |r.totals| ==> r.totals[i] == Total(windows, pods, topic, i))
    && RecordsAll(r.records, windows, pods, topic, now)
    && Describes(r.desc, windows, pods, now)
    && (pods == [] ==> r.desc == NOTHING)
  }

  // The pods of each tenant are given; there is no answer for a tenant that does not exist.
  method ComputeStatisticsOfTenant(tsc: SeriesFamily, podsOf: map<string, seq<string>>, tenant: string,
                                   topic: MetricsTopic, now: int)
    returns (r: Option<TenantStatistics>)
    requires tsc.Valid()
    ensures r.Some? <==> tenant in podsOf
    ensures r.Some? ==> StatisticsAre(r.value, tsc.Windows, podsOf[tenant], topic, now)
  {
    hide SeriesFamily.Valid, Describes, RecordsAll;
    if tenant !in podsOf {
      return None;
    }
    var ret, records, desc := StatisticsOfPods(tsc, podsOf[tenant], topic, now);
    return Some(TenantStatistics(ret, records, desc));
  }

  lemma NothingDescribesNone(windows: map<string, Window>, topic: MetricsTopic, now: int)
    ensures Describes(NOTHING, windows, [], now) && RecordsAll(map[], windows, [], topic, now)
  {
  }

  // ---------------------------------------------------------------------------------------------
  // What the totals say about the samples

  // For CPU: every pod's own mean of its first values, added up, whatever the pods' numbers of samples.
  ghost function SumOfMeans(windows: map<string, Window>, pods: seq<string>): real {
    if pods == [] then 0.0
    else
      var p, rest := pods[|pods| - 1], SumOfMeans(windows, pods[..|pods| - 1]);
      var values := if p in windows then ValuesAt(windows[p].points, 0) else [];
      if values == [] then rest else rest + SumOf(values) / |values| as real
  }

  // For task counts: all pods' first values, one after the other.
  ghost function AllTasks(windows: map<string, Window>, pods: seq<string>): seq<real> {
    if pods == [] then []
    else
      var p := pods[|pods| - 1];
      AllTasks(windows, pods[..|pods| - 1]) + if p in windows then ValuesAt(windows[p].points, 0) else []
  }

  lemma {:induction false} CpuIsSumOfMeans(windows: map<string, Window>, pods: seq<string>)
    ensures Total(windows, pods, Cpu, 0).sum == SumOfMeans(windows, pods)
  {
    if pods != [] {
      CpuIsSumOfMeans(windows, pods[..|pods| - 1]);
      var p := pods[|pods| - 1];
      if p in windows { StatSumsValues(windows[p].points, 0); }
    }
  }

  lemma {:induction false} SumOfBoth(xs: seq<real>, ys: seq<real>)
    ensures SumOf(xs + ys) == SumOf(xs) + SumOf(ys)
  {
    if xs == [] {
      assert xs + ys == ys;
    } else {
      SumOfBoth(xs[1..], ys);
      assert (xs + ys)[1..] == xs[1..] + ys;
    }
  }

  lemma {:induction false} TasksAddUp(windows: map<string, Window>, pods: seq<string>)
    ensures Total(windows, pods, TaskCnt, 0).sum == SumOf(AllTasks(windows, pods))
    ensures Total(windows, pods, TaskCnt, 0).cnt == |AllTasks(windows, pods)|
  {
    if pods != [] {
      var p, rest := pods[|pods| - 1], pods[..|pods| - 1];
      TasksAddUp(windows, rest);
      var own := if p in windows then ValuesAt(windows[p].points, 0) else [];
      if p in windows { StatSumsValues(windows[p].points, 0); }
      assert AllTasks(windows, pods) == AllTasks(windows, rest) + own;
      SumOfBoth(AllTasks(windows, rest), own);
    }
  }

  ghost function Samples(windows: map<string, Window>, pods: seq<string>): nat {
    if pods == [] then 0
    else
      var p := pods[|pods| - 1];
      Samples(windows, pods[..|pods| - 1]) + if p in windows then |windows[p].points| else 0
  }

  // Every retained task count of every pod counts once.
  lemma TasksBetween(windows: map<string, Window>, pods: seq<string>, lo: real, hi: real)
    requires AllBetween(windows, pods, lo, hi)
    ensures lo * Samples(windows, pods) as real <= SumOf(AllTasks(windows, pods)) <= hi * Samples(windows, pods) as real
  {
    hide AllBetween, AllTasks, SumOf, Samples;
    TasksAmong(windows, pods, lo, hi);
    SumBetween(AllTasks(windows, pods), lo, hi);
  }

  lemma {:induction false} TasksAmong(windows: map<string, Window>, pods: seq<string>, lo: real, hi: real)
    requires AllBetween(windows, pods, lo, hi)
    ensures |AllTasks(windows, pods)| == Samples(windows, pods)
    ensures forall x :: x in AllTasks(windows, pods) ==> lo <= x <= hi
  {
    if pods != [] {
      var p, rest := pods[|pods| - 1], pods[..|pods| - 1];
      assert p in pods && forall q :: q in rest ==> q in pods;
      TasksAmong(windows, rest, lo, hi);
      ValuesAmong(windows[p].points, 0, lo, hi);
    }
  }

  // The record of a pod: the mean of its first values; their number for task counts, a weight of one for
  // CPU; and a pod without a window looks like an empty one that starts a day from now.
  lemma RecordDescribesPod(windows: map<string, Window>, pod: string, topic: MetricsTopic, now: int)
    ensures var r := RecordOf(windows, pod, topic, now);
            var values := if pod in windows then ValuesAt(windows[pod].points, 0) else [];
            && r.avg == (if values == [] then 0.0 else SumOf(values) / |values| as real)
            && r.cnt == (if topic == Cpu then 1 else |values|)
            && (pod !in windows ==> r.desc == PodSeriesDesc(now + 24 * 3600, now + 24 * 3600, 0))
            && (pod in windows ==> r.desc.size == |windows[pod].points|)
  {
    if pod in windows { StatSumsValues(windows[pod].points, 0); }
  }

  // Each pod's samples lie between its own two bounds.
  ghost predicate Between(windows: map<string, Window>, pods: seq<string>, lo: map<string, real>,
                          hi: map<string, real>) {
    forall p :: p in pods ==>
      && p in windows && windows[p].points != [] && p in lo && p in hi
      && forall q :: q in windows[p].points ==> q.values != [] && lo[p] <= q.values[0] <= hi[p]
  }

  ghost function AddUp(pods: seq<string>, x: map<string, real>): real
    requires forall p :: p in pods ==> p in x
  {
    if pods == [] then 0.0 else AddUp(pods[..|pods| - 1], x) + x[pods[|pods| - 1]]
  }

  // Every pod counts once, with a value between its own bounds.
  lemma {:induction false} CpuBetween(windows: map<string, Window>, pods: seq<string>, lo: map<string, real>,
                                      hi: map<string, real>)
    requires Between(windows, pods, lo, hi)
    ensures AddUp(pods, lo) <= Total(windows, pods, Cpu, 0).sum <= AddUp(pods, hi)
  {
    hide StatOf;
    if pods != [] {
      var p, rest := pods[|pods| - 1], pods[..|pods| - 1];
      assert p in pods && forall q :: q in rest ==> q in pods;
      CpuBetween(windows, rest, lo, hi);
      AverageBetween(windows[p].points, 0, lo[p], hi[p]);
    }
  }

  lemma {:induction false} AddUpSame(pods: seq<string>, x: map<string, real>, c: real)
    requires forall p :: p in pods ==> p in x && x[p] == c
    ensures AddUp(pods, x) == c * |pods| as real
  {
    if pods != [] {
      assert forall q :: q in pods[..|pods| - 1] ==> q in pods;
      AddUpSame(pods[..|pods| - 1], x, c);
    }
  }

  lemma MeanIs(mean: real, n: int, lo: real, hi: real)
    requires n > 0 && lo * n as real <= mean * n as real <= hi * n as real
    ensures lo <= mean <= hi
  {
    MeanBetween(mean * n as real, n, lo, hi);
    assert mean * n as real / n as real == mean;
  }

  ghost predicate AllBetween(windows: map<string, Window>, pods: seq<string>, lo: real, hi: real) {
    forall p :: p in pods ==>
      && p in windows && windows[p].points != []
      && forall q :: q in windows[p].points ==> q.values != [] && lo <= q.values[0] <= hi
  }

  lemma MeansBetween(windows: map<string, Window>, pods: seq<string>, lo: real, hi: real)
    requires AllBetween(windows, pods, lo, hi)
    ensures lo * |pods| as real <= SumOfMeans(windows, pods) <= hi * |pods| as real
  {
    var los, his := map p | p in pods :: lo, map p | p in pods :: hi;
    assert Between(windows, pods, los, his);
    hide Between, AllBetween, Total, AddUp, SumOfMeans;
    CpuBetween(windows, pods, los, his);
    CpuIsSumOfMeans(windows, pods);
    AddUpSame(pods, los, lo);
    AddUpSame(pods, his, hi);
  }

  // Samples between lo and hi everywhere give a usage between lo and hi.
  lemma UsageBetween(windows: map<string, Window>, pods: seq<string>, lo: real, hi: real, usage: real)
    requires pods != [] && usage * |pods| as real == SumOfMeans(windows, pods) && AllBetween(windows, pods, lo, hi)
    ensures lo <= usage <= hi
  {
    hide AllBetween, SumOfMeans;
    MeansBetween(windows, pods, lo, hi);
    MeanIs(usage, |pods|, lo, hi);
  }

  // Every pod has at least two samples, the oldest of them about one interval old.
  ghost predicate Observed(windows: map<string, Window>, pods: seq<string>, interval: int, now: int) {
    && pods != []
    && forall p :: p in pods ==>
         p in windows && |windows[p].points| >= 2 && windows[p].points[0].time < now - interval + 30
  }

  lemma ObservedSays(windows: map<string, Window>, pods: seq<string>, interval: int, now: int)
    ensures Observed(windows, pods, interval, now) <==>
              && pods != []
              && forall p :: p in pods ==>
                   p in windows && |windows[p].points| >= 2 && windows[p].points[0].time < now - interval + 30
  {
  }

  lemma GateIsObserved(d: TenantSeriesDesc, windows: map<string, Window>, pods: seq<string>, interval: int, now: int)
    requires Describes(d, windows, pods, now) && (pods == [] ==> d == NOTHING)
    ensures d.minOfSize >= 2 && d.maxOfMinTime < now - interval + 30 <==> Observed(windows, pods, interval, now)
  {
    if Observed(windows, pods, interval, now) {
      var p :| p in pods && DescOfPod(windows, p, now).minTime == d.maxOfMinTime;
      var q :| q in pods && DescOfPod(windows, q, now).size == d.minOfSize;
    }
  }

  // The analysis loop asks for a pause exactly when automatic pausing is on, every pod of a
  // non-empty tenant has been observed long enough, and all retained task counts sum below one.
  method WantsAutoPause(tsc: SeriesFamily, podsOf: map<string, seq<string>>, tenant: string,
                        autoPauseIntervalSec: int, now: int)
    returns (pause: bool)
    requires tsc.Valid()
    ensures pause <==> && autoPauseIntervalSec != 0 && tenant in podsOf && podsOf[tenant] != []
                       && (forall p :: p in podsOf[tenant] ==>
                             && p in tsc.Windows && |tsc.Windows[p].points| >= 2
                             && tsc.Windows[p].points[0].time < now - autoPauseIntervalSec + 30)
                       && SumOf(AllTasks(tsc.Windows, podsOf[tenant])) < 1.0
  {
    if tenant in podsOf { ObservedSays(tsc.Windows, podsOf[tenant], autoPauseIntervalSec, now); }
    hide Describes, Observed, SumOf, AllTasks;
    pause := false;
    if autoPauseIntervalSec != 0 {
      var r := ComputeStatisticsOfTenant(tsc, podsOf, tenant, TaskCnt, now);
      if r.Some? {
        var desc := r.value.desc;
        GateIsObserved(desc, tsc.Windows, podsOf[tenant], autoPauseIntervalSec, now);
        if desc.minOfSize >= 2 && desc.maxOfMinTime < now - autoPauseIntervalSec + 30 {
          TasksAddUp(tsc.Windows, podsOf[tenant]);
          pause := r.value.totals[0].sum < 1.0;
        }
      }
    }
  }

  // The usage the scaling rule is given: the mean over the pods of each pod's own average.
  method UsageForScaling(tsc: SeriesFamily, podsOf: map<string, seq<string>>, tenant: string,
                         scaleIntervalSec: int, now: int)
    returns (usage: Option<real>)
    requires tsc.Valid()
    ensures usage.Some? <==> tenant in podsOf && Observed(tsc.Windows, podsOf[tenant], scaleIntervalSec, now)
    ensures usage.Some? ==>
      usage.value * |podsOf[tenant]| as real == SumOfMeans(tsc.Windows, podsOf[tenant])
  {
    hide SumOfMeans, Describes, Observed, RecordsAll, SeriesFamily.Valid, Total;
    var r := ComputeStatisticsOfTenant(tsc, podsOf, tenant, Cpu, now);
    if r.None? {
      return None;
    }
    var desc := r.value.desc;
    GateIsObserved(desc, tsc.Windows, podsOf[tenant], scaleIntervalSec, now);
    if desc.minOfSize >= 2 && desc.maxOfMinTime < now - scaleIntervalSec + 30 {
      MeanOverPods(tsc.Windows, podsOf[tenant], scaleIntervalSec, now);
      CpuIsSumOfMeans(tsc.Windows, podsOf[tenant]);
      return Some(r.value.totals[0].Avg());
    }
    return None;
  }

  lemma MeanOverPods(windows: map<string, Window>, pods: seq<string>, interval: int, now: int)
    requires Observed(windows, pods, interval, now)
    ensures Total(windows, pods, Cpu, 0).Avg() * |pods| as real == Total(windows, pods, Cpu, 0).sum
  {
    CpuCountsPods(windows, pods, 0);
    hide Total;
  }

  lemma {:induction false} CpuCountsPods(windows: map<string, Window>, pods: seq<string>, i: nat)
    ensures Total(windows, pods, Cpu, i).cnt == |pods|
  {
    if pods != [] { CpuCountsPods(windows, pods[..|pods| - 1], i); }
  }

  // ---------------------------------------------------------------------------------------------
  // What a pause request says about the samples

  ghost predicate NonNegative(points: seq<Point>) {
    forall p :: p in points ==> forall v :: v in p.values ==> v >= 0.0
  }

  lemma {:induction false} SampleBelowSum(points: seq<Point>, k: nat, i: nat)
    requires NonNegative(points) && k < |points| && i < |points[k].values|
    ensures StatOf(points, i).sum >= points[k].values[i]
  {
    SumNonNegative(points[1..], i);
    assert points[0] in points;
    assert i < |points[0].values| ==> points[0].values[i] in points[0].values;
    if k > 0 {
      SampleBelowSum(points[1..], k - 1, i);
    }
  }

  lemma {:induction false} SumNonNegative(points: seq<Point>, i: nat)
    requires NonNegative(points)
    ensures StatOf(points, i).sum >= 0.0
  {
    if points != [] {
      SumNonNegative(points[1..], i);
      assert points[0] in points;
      assert i < |points[0].values| ==> points[0].values[i] in points[0].values;
    }
  }

  lemma {:induction false} PodBelowTotal(windows: map<string, Window>, pods: seq<string>, pod: string, i: nat)
    requires forall p :: p in pods && p in windows ==> NonNegative(windows[p].points)
    requires pod in pods
    ensures Total(windows, pods, TaskCnt, i).sum >= Contribution(windows, pod, TaskCnt, i).sum
  {
    var last := |pods| - 1;
    var rest := pods[..last];
    assert pods == rest + [pods[last]];
    TotalNonNegative(windows, rest, i);
    assert forall p :: p in rest ==> p in pods;
    if pods[last] in windows { SumNonNegative(windows[pods[last]].points, i); }
    if pod in rest { PodBelowTotal(windows, rest, pod, i); }
  }

  lemma {:induction false} TotalNonNegative(windows: map<string, Window>, pods: seq<string>, i: nat)
    requires forall p :: p in pods && p in windows ==> NonNegative(windows[p].points)
    ensures Total(windows, pods, TaskCnt, i).sum >= 0.0
  {
    if pods != [] {
      var last := |pods| - 1;
      assert forall p :: p in pods[..last] ==> p in pods;
      TotalNonNegative(windows, pods[..last], i);
      if pods[last] in windows { SumNonNegative(windows[pods[last]].points, i); }
    }
  }

  // With non-negative samples, no retained task count of any pod of a paused tenant reaches one.
  lemma PausedPodsAreIdle(windows: map<string, Window>, pods: seq<string>, pod: string, k: nat)
    requires forall p :: p in pods && p in windows ==> NonNegative(windows[p].points)
    requires SumOf(AllTasks(windows, pods)) < 1.0
    requires pod in pods && pod in windows && k < |windows[pod].points| && windows[pod].points[k].values != []
    ensures 0.0 <= windows[pod].points[k].values[0] < 1.0
  {
    TasksAddUp(windows, pods);
    PodBelowTotal(windows, pods, pod, 0);
    SampleBelowSum(windows[pod].points, k, 0);
    assert windows[pod].points[k] in windows[pod].points;
    assert windows[pod].points[k].values[0] in windows[pod].points[k].values;
  }
}
