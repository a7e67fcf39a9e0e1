// All pods' windows (TimeSeriesContainer in autoscale/timeseries.go): one map of series per metric.
module SeriesContainer {
  import opened TimeSeries
  import opened Wrappers

  datatype MetricsTopic = Cpu | TaskCnt

  // Oldest retained time, newest accepted time and size of one pod's window.
  datatype PodSeriesDesc = PodSeriesDesc(minTime: int, maxTime: int, size: int)

  function DescOf(w: Window): PodSeriesDesc {
    if w.points == [] then PodSeriesDesc(0, 0, 0) else PodSeriesDesc(w.points[0].time, w.maxTime, |w.points|)
  }

  lemma InsertSetsInterval(w: Window, o: Offer)
    ensures TimeSeries.Insert(w.(interval := o.interval), o) == TimeSeries.Insert(w, o)
  {
  }

  // The map of one metric, from pod names to series; Windows is what it holds.
  class SeriesFamily {
    var entries: map<string, SimpleTimeSeries>
    ghost var Windows: map<string, Window>

    ghost predicate Valid()
      reads this, entries.Values
    {
      && Windows.Keys == entries.Keys
      && (forall pod :: pod in entries ==> entries[pod].pod == pod)
      && (forall pod :: pod in entries ==> entries[pod].Valid())
      && (forall pod :: pod in entries ==> Windows[pod] == entries[pod].View())
    }

    constructor ()
      ensures Valid() && Windows == map[] && fresh(entries.Values)
    {
      entries := map[];
      Windows := map[];
    }

    // The entry of a pod, created or brought to the configured interval.
    method Entry(key: string, cfgIntervalSec: int) returns (val: SimpleTimeSeries)
      requires Valid()
      modifies this, entries.Values
      ensures Valid() && key in entries && entries[key] == val
      ensures fresh(entries.Values - old(entries.Values))
      ensures Windows == old(Windows)[key :=
                if key in old(Windows) then old(Windows)[key].(interval := cfgIntervalSec) else Fresh(cfgIntervalSec)]
    {
      hide SimpleTimeSeries.Valid;
      if key !in entries {
        val := new SimpleTimeSeries(cfgIntervalSec, key);
        entries := entries[key := val];
      } else {
        val := entries[key];
        if val.intervalSec != cfgIntervalSec {
          val.ReloadCfg(cfgIntervalSec);
        }
      }
      Windows := Windows[key := val.View()];
    }

    method AppendTo(key: string, time: int, values: seq<real>) returns (ok: bool)
      requires Valid() && key in entries && |values| <= CAPACITY_OF_STATISTICS
      modifies this`Windows, entries[key]
      ensures Valid()
      ensures ok <==> time > old(Windows)[key].maxTime
      ensures Windows == old(Windows)[key :=
                TimeSeries.Insert(old(Windows)[key], Offer(Point(time, values), old(Windows)[key].interval))]
    {
      hide SimpleTimeSeries.Valid, TimeSeries.Insert;
      ok := entries[key].TryAppend(time, values);
      Windows := Windows[key := entries[key].View()];
    }

    method Insert(key: string, time: int, values: seq<real>, cfgIntervalSec: int) returns (ok: bool)
      requires Valid() && |values| <= CAPACITY_OF_STATISTICS
      modifies this, entries.Values
      ensures Valid() && fresh(entries.Values - old(entries.Values))
      ensures var before := if key in old(Windows) then old(Windows)[key] else Fresh(cfgIntervalSec);
              && (ok <==> time > before.maxTime)
              && Windows == old(Windows)[key := TimeSeries.Insert(before, Offer(Point(time, values), cfgIntervalSec))]
    {
      hide SimpleTimeSeries.Valid, TimeSeries.Insert;
      InsertSetsInterval(if key in Windows then Windows[key] else Fresh(cfgIntervalSec),
                         Offer(Point(time, values), cfgIntervalSec));
      var _ := Entry(key, cfgIntervalSec);
      ok := AppendTo(key, time, values);
    }

    // A copy of a pod's statistics and the description of its window.
    method GetStatisticsOfPod(pod: string) returns (r: Option<(seq<AvgSigma>, PodSeriesDesc)>)
      requires Valid()
      ensures r.None? <==> pod !in Windows
      ensures r.Some? ==> |r.value.0| == 6 && Exact(r.value.0, Windows[pod].points)
      ensures r.Some? ==> r.value.1 == DescOf(Windows[pod])
      ensures r.Some? ==>
        var points, desc := Windows[pod].points, r.value.1;
        && desc.size == |points|
        && (points != [] ==> desc.minTime == points[0].time && desc.maxTime == Windows[pod].maxTime)
        && (points == [] ==> desc.minTime == desc.maxTime == 0)
    {
      if pod !in entries {
        return None;
      }
      var v := entries[pod];
      var ret := MergeInto(seq(CAPACITY_OF_STATISTICS, _ => AvgSigma(0.0, 0)), v.Statistics);
      var minT, maxT := v.GetMinMaxTime();
      return Some((ret, PodSeriesDesc(minT, maxT, |v.series|)));
    }

    method Reset(pod: string)
      requires Valid()
      modifies this
      ensures Valid() && Windows == old(Windows) - {pod}
      ensures entries.Values <= old(entries.Values)
    {
      entries := entries - {pod};
      Windows := Windows - {pod};
    }
  }

  // One family per metric.
  class TimeSeriesContainer {
    const cpu: SeriesFamily
    const taskCnt: SeriesFamily

    ghost predicate Valid()
      reads cpu, cpu.entries.Values, taskCnt, taskCnt.entries.Values
    {
      && cpu != taskCnt && cpu.entries.Values !! taskCnt.entries.Values
      && cpu.Valid() && taskCnt.Valid()
    }

    constructor ()
      ensures Valid() && fresh(cpu) && fresh(taskCnt) && cpu.Windows == map[] && taskCnt.Windows == map[]
    {
      cpu := new SeriesFamily();
      taskCnt := new SeriesFamily();
    }

    method InsertWithUserCfg(key: string, time: int, values: seq<real>, cfgIntervalSec: int, topic: MetricsTopic)
      returns (ok: bool)
      requires Valid() && |values| <= CAPACITY_OF_STATISTICS
      modifies cpu, cpu.entries.Values, taskCnt, taskCnt.entries.Values
      ensures Valid()
      ensures var family, other := if topic == Cpu then cpu else taskCnt, if topic == Cpu then taskCnt else cpu;
              var before := if key in old(family.Windows) then old(family.Windows)[key] else Fresh(cfgIntervalSec);
              && (ok <==> time > before.maxTime)
              && family.Windows ==
                   old(family.Windows)[key := TimeSeries.Insert(before, Offer(Point(time, values), cfgIntervalSec))]
              && other.Windows == old(other.Windows)
    {
      hide SimpleTimeSeries.Valid, TimeSeries.Insert;
      if topic == Cpu {
        ok := cpu.Insert(key, time, values, cfgIntervalSec);
      } else {
        ok := taskCnt.Insert(key, time, values, cfgIntervalSec);
      }
    }

    method ResetMetricsOfPod(pod: string)
      requires Valid()
      modifies cpu, taskCnt
      ensures Valid()
      ensures cpu.Windows == old(cpu.Windows) - {pod} && taskCnt.Windows == old(taskCnt.Windows) - {pod}
    {
      cpu.Reset(pod);
      taskCnt.Reset(pod);
    }
  }
}
