// The sliding window of one pod's samples (autoscale/timeseries.go), float64 read as real.
//
// The first half is the mathematics of the window over the whole history of offers; the second half
// is the in-place series and the container of series, proved against it.
module TimeSeries {
  import opened Numbers

  const METRIC_RESOLUTION_SECONDS := 10
  const CAPACITY_OF_STATISTICS := 6

  datatype Point = Point(time: int, values: seq<real>)

  datatype AvgSigma = AvgSigma(sum: real, cnt: int) {
    function Avg(): real {
      if cnt <= 0 then 0.0 else sum / cnt as real
    }
  }

  // Room for one sample every ten seconds of the interval, and for one at least.
  function CapOf(intervalSec: int): (cap: int)
    ensures cap >= 1
    ensures intervalSec >= 10 ==> cap * 10 <= intervalSec < (cap + 1) * 10
    ensures intervalSec < 10 ==> cap == 1
  {
    MaxInt(DivTrunc(intervalSec, METRIC_RESOLUTION_SECONDS), 1)
  }

  // ---------------------------------------------------------------------------------------------
  // What a series is: a function of the offers it has seen

  // One call of the insert path: a sample and the interval configured at that moment.
  datatype Offer = Offer(point: Point, interval: int)

  // The retained points, the newest accepted time (0 before any) and the interval in force.
  datatype Window = Window(points: seq<Point>, maxTime: int, interval: int)

  // The oldest point goes while there are too many, or while it is an interval older than the newest.
  predicate FrontExpired(points: seq<Point>, interval: int) {
    || |points| > CapOf(interval)
    || (|points| > 0 && points[0].time <= points[|points| - 1].time - interval)
  }

  function Evict(points: seq<Point>, interval: int): seq<Point>
    decreases |points|
  {
    if FrontExpired(points, interval) then Evict(points[1..], interval) else points
  }

  function Fresh(interval: int): Window {
    Window([], 0, interval)
  }

  function Insert(w: Window, o: Offer): Window {
    if o.point.time > w.maxTime
    then Window(Evict(w.points + [o.point], o.interval), o.point.time, o.interval)
    else w.(interval := o.interval)
  }

  function Replay(offers: seq<Offer>): Window
    requires offers != []
  {
    var last := |offers| - 1;
    Insert(if last == 0 then Fresh(offers[0].interval) else Replay(offers[..last]), offers[last])
  }

  // ---------------------------------------------------------------------------------------------
  // Which offers are accepted

  // Newer than every earlier offer, and than the epoch.
  ghost predicate RunningMaximum(offers: seq<Offer>, k: nat)
    requires k < |offers|
  {
    && offers[k].point.time > 0
    && forall j :: 0 <= j < k ==> offers[j].point.time < offers[k].point.time
  }

  // The subsequence of the offers at which a new maximum is reached.
  ghost function Accepted(offers: seq<Offer>): seq<Offer> {
    if offers == [] then []
    else
      var last := |offers| - 1;
      Accepted(offers[..last]) + if RunningMaximum(offers, last) then [offers[last]] else []
  }

  function Points(offers: seq<Offer>): (ps: seq<Point>)
    ensures |ps| == |offers|
    ensures forall i :: 0 <= i < |ps| ==> ps[i] == offers[i].point
  {
    if offers == [] then [] else Points(offers[..|offers| - 1]) + [offers[|offers| - 1].point]
  }

  ghost predicate Increasing(offers: seq<Offer>) {
    forall i, j :: 0 <= i < j < |offers| ==> offers[i].point.time < offers[j].point.time
  }

  // Accepted times increase, and the newest bounds every offer so far.
  lemma {:induction false} AcceptedIncreases(offers: seq<Offer>)
    ensures Increasing(Accepted(offers))
    ensures Among(Accepted(offers), offers) && Bounded(offers, NewestTime(Accepted(offers)))
  {
    if offers != [] {
      hide RunningMaximum, Increasing, Among, Bounded;
      var last := |offers| - 1;
      AcceptedIncreases(offers[..last]);
      assert offers == offers[..last] + [offers[last]];
      if RunningMaximum(offers, last) {
        NewMaximum(Accepted(offers[..last]), offers[..last], offers[last]);
      } else {
        NoNewMaximum(Accepted(offers[..last]), offers[..last], offers[last]);
      }
    } else {
      assert Among([], offers) && Bounded(offers, 0);
    }
  }

  ghost function NewestTime(acc: seq<Offer>): int {
    if acc == [] then 0 else acc[|acc| - 1].point.time
  }

  // Offers made after the epoch, all of them among the given ones.
  ghost predicate Among(acc: seq<Offer>, offers: seq<Offer>) {
    forall i :: 0 <= i < |acc| ==> acc[i] in offers && acc[i].point.time > 0
  }

  ghost predicate Bounded(offers: seq<Offer>, time: int) {
    forall i :: 0 <= i < |offers| ==> offers[i].point.time <= time
  }

  lemma NewMaximum(acc: seq<Offer>, rest: seq<Offer>, o: Offer)
    requires Increasing(acc) && Among(acc, rest) && Bounded(rest, NewestTime(acc))
    requires RunningMaximum(rest + [o], |rest|)
    ensures Increasing(acc + [o]) && Among(acc + [o], rest + [o]) && Bounded(rest + [o], NewestTime(acc + [o]))
  {
    var all := rest + [o];
    assert all[|rest|] == o;
    forall j | 0 <= j < |rest| ensures rest[j].point.time < o.point.time { assert all[j] == rest[j]; }
    forall i | 0 <= i < |acc| ensures acc[i].point.time < o.point.time { assert acc[i] in rest; }
  }

  lemma NoNewMaximum(acc: seq<Offer>, rest: seq<Offer>, o: Offer)
    requires Among(acc, rest) && Bounded(rest, NewestTime(acc)) && !RunningMaximum(rest + [o], |rest|)
    ensures Among(acc, rest + [o]) && Bounded(rest + [o], NewestTime(acc))
  {
    var all := rest + [o];
    assert all[|rest|] == o;
    if o.point.time > 0 {
      var j :| 0 <= j < |rest| && all[j].point.time >= o.point.time;
      assert rest[j] == all[j];
    }
  }

  // The series keeps the newest accepted time, and accepts exactly the running maxima.
  lemma {:induction false} AcceptsRunningMaxima(offers: seq<Offer>)
    requires offers != []
    ensures Replay(offers).maxTime == NewestTime(Accepted(offers))
    ensures forall later: Offer :: later.point.time > Replay(offers).maxTime <==>
                                   RunningMaximum(offers + [later], |offers|)
    ensures Replay(offers).interval == offers[|offers| - 1].interval
  {
    hide RunningMaximum, Among, Bounded, Increasing, Evict;
    var last := |offers| - 1;
    assert offers[..last] + [offers[last]] == offers;
    if last > 0 {
      AcceptsRunningMaxima(offers[..last]);
      assert offers[last].point.time > Replay(offers[..last]).maxTime <==> RunningMaximum(offers, last);
    } else {
      MaximumIff([], [], offers[0]);
    }
    AcceptedIncreases(offers);
    forall later: Offer
      ensures later.point.time > Replay(offers).maxTime <==> RunningMaximum(offers + [later], |offers|)
    {
      MaximumIff(Accepted(offers), offers, later);
    }
  }

  lemma MaximumIff(acc: seq<Offer>, offers: seq<Offer>, later: Offer)
    requires Among(acc, offers) && Bounded(offers, NewestTime(acc))
    ensures later.point.time > NewestTime(acc) <==> RunningMaximum(offers + [later], |offers|)
  {
    forall j | 0 <= j < |offers| ensures (offers + [later])[j] == offers[j] {}
    if acc != [] {
      var k :| 0 <= k < |offers| && offers[k] == acc[|acc| - 1];
    }
  }

  // ---------------------------------------------------------------------------------------------
  // Which accepted points are retained

  // How many leading points are older than the interval allows.
  ghost function AgeCut(points: seq<Point>, bound: int): (c: nat)
    ensures c <= |points|
  {
    if points == [] || points[0].time > bound then 0 else 1 + AgeCut(points[1..], bound)
  }

  // The cut that the newest accepted offer alone asks for, under its own configuration.
  ghost function CutPoint(acc: seq<Offer>): int
    requires acc != []
  {
    var newest := acc[|acc| - 1];
    MaxInt(|acc| - CapOf(newest.interval), AgeCut(Points(acc), newest.point.time - newest.interval))
  }

  // The running maximum of the cut points.
  ghost function Cut(acc: seq<Offer>): (c: nat)
    ensures c <= |acc|
  {
    if acc == [] then 0 else MaxInt(Cut(acc[..|acc| - 1]), CutPoint(acc))
  }

  ghost predicate Ascending(points: seq<Point>) {
    forall i, j :: 0 <= i < j < |points| ==> points[i].time < points[j].time
  }

  lemma {:induction false} AgeCutIsTheBoundary(points: seq<Point>, bound: int)
    requires Ascending(points)
    ensures forall i :: 0 <= i < |points| ==> (i < AgeCut(points, bound) <==> points[i].time <= bound)
  {
    if points != [] && points[0].time <= bound {
      AgeCutIsTheBoundary(points[1..], bound);
      forall i | 0 <= i < |points| ensures i < AgeCut(points, bound) <==> points[i].time <= bound {
        if i > 0 { assert points[i] == points[1..][i - 1]; }
      }
    }
  }

  // Evicting from the suffix at c stops at the first suffix that is short and young enough.
  lemma {:induction false} EvictStopsAt(points: seq<Point>, c: nat, interval: int)
    requires Ascending(points) && points != [] && c <= |points|
    ensures var stop := MaxInt(c, MaxInt(|points| - CapOf(interval),
                                         AgeCut(points, points[|points| - 1].time - interval)));
            stop <= |points| && Evict(points[c..], interval) == points[stop..]
    decreases |points| - c
  {
    hide FrontExpired, AgeCut, CapOf, Ascending;
    FrontExpiredIff(points, c, interval);
    if FrontExpired(points[c..], interval) {
      assert points[c..][1..] == points[c + 1..];
      EvictStopsAt(points, c + 1, interval);
    }
  }

  lemma FrontExpiredIff(points: seq<Point>, c: nat, interval: int)
    requires Ascending(points) && points != [] && c <= |points|
    ensures var bound := points[|points| - 1].time - interval;
            FrontExpired(points[c..], interval) <==> c < MaxInt(|points| - CapOf(interval), AgeCut(points, bound))
  {
    hide AgeCut, CapOf, Ascending;
    AgeCutIsTheBoundary(points, points[|points| - 1].time - interval);
  }

  // One more accepted offer: evicting from the old cut lands on the new one.
  lemma AcceptExtends(before: seq<Offer>, o: Offer)
    requires Increasing(before + [o])
    ensures var acc := before + [o];
            Evict(Points(before)[Cut(before)..] + [o.point], o.interval) == Points(acc)[Cut(acc)..]
  {
    hide Evict, AgeCut, CapOf;
    var acc := before + [o];
    assert acc[..|acc| - 1] == before;
    assert Ascending(Points(acc));
    hide Increasing, Ascending;
    assert Points(before)[Cut(before)..] + [o.point] == Points(acc)[Cut(before)..];
    EvictStopsAt(Points(acc), Cut(before), o.interval);
  }

  // The window is a suffix of the accepted history: the one at the running maximum of the cuts.
  lemma {:induction false} WindowIsSuffix(offers: seq<Offer>)
    requires offers != []
    ensures Replay(offers).points == Points(Accepted(offers))[Cut(Accepted(offers))..]
  {
    hide Insert, Accepted, Points, Cut, RunningMaximum;
    if |offers| == 1 {
      FirstOffer(offers);
      SuffixGrows(offers, Fresh(offers[0].interval));
    } else {
      var last := |offers| - 1;
      WindowIsSuffix(offers[..last]);
      AcceptsRunningMaxima(offers[..last]);
      assert offers[..last] + [offers[last]] == offers;
      assert offers[last].point.time > Replay(offers[..last]).maxTime <==> RunningMaximum(offers, last);
      SuffixGrows(offers, Replay(offers[..last]));
    }
  }

  lemma SuffixGrows(offers: seq<Offer>, w: Window)
    requires offers != []
    requires w.points == Points(Accepted(offers[..|offers| - 1]))[Cut(Accepted(offers[..|offers| - 1]))..]
    requires offers[|offers| - 1].point.time > w.maxTime <==> RunningMaximum(offers, |offers| - 1)
    ensures Insert(w, offers[|offers| - 1]).points == Points(Accepted(offers))[Cut(Accepted(offers))..]
  {
    hide Evict, Cut, RunningMaximum, Increasing, Points;
    var last := |offers| - 1;
    if RunningMaximum(offers, last) {
      assert Accepted(offers) == Accepted(offers[..last]) + [offers[last]];
      assert Increasing(Accepted(offers)) by { AcceptedIncreases(offers); }
      AcceptExtends(Accepted(offers[..last]), offers[last]);
    } else {
      assert Accepted(offers) == Accepted(offers[..last]);
    }
  }

  lemma FirstOffer(offers: seq<Offer>)
    requires |offers| == 1
    ensures Points(Accepted(offers[..0]))[Cut(Accepted(offers[..0]))..] == []
    ensures 0 < offers[0].point.time <==> RunningMaximum(offers, 0)
  {
  }

  // The window holds nothing exactly when nothing was accepted or the last accepted sample came
  // with an interval that excludes the sample itself.
  lemma {:induction false} EmptyIff(offers: seq<Offer>)
    requires offers != []
    ensures var acc := Accepted(offers);
            Replay(offers).points == [] <==> acc == [] || acc[|acc| - 1].interval <= 0
  {
    WindowIsSuffix(offers);
    AcceptedIncreases(offers);
    var acc := Accepted(offers);
    if acc != [] {
      CutStopsShort(acc);
    }
  }

  lemma {:induction false} CutStopsShort(acc: seq<Offer>)
    requires Increasing(acc) && acc != []
    ensures Cut(acc) == |acc| <==> acc[|acc| - 1].interval <= 0
  {
    var newest := acc[|acc| - 1];
    AgeCutIsTheBoundary(Points(acc), newest.point.time - newest.interval);
    assert Points(acc)[|acc| - 1] == newest.point;
  }

  // The suffix at j is short enough and young enough for the newest accepted offer: at most one sample,
  // or at most one for every ten seconds of the interval; and none that is an interval old.
  ghost predicate Fits(acc: seq<Offer>, j: nat, interval: int)
    requires acc != [] && j <= |acc|
  {
    && (|acc| - j <= 1 || (|acc| - j) * 10 <= interval)
    && forall i :: j <= i < |acc| ==> acc[i].point.time > acc[|acc| - 1].point.time - interval
  }

  lemma {:induction false} FitsIffBeyondCutPoint(acc: seq<Offer>, j: nat)
    requires Increasing(acc) && acc != [] && j <= |acc|
    ensures Fits(acc, j, acc[|acc| - 1].interval) <==> j >= CutPoint(acc)
  {
    var newest := acc[|acc| - 1];
    var bound := newest.point.time - newest.interval;
    AgeCutIsTheBoundary(Points(acc), bound);
    var c := AgeCut(Points(acc), bound);
    if j < c { assert Points(acc)[j].time <= bound; }
  }

  // While the interval does not change, older cuts never exceed the newest one.
  lemma {:induction false} CutIsNewestCut(acc: seq<Offer>, interval: int)
    requires Increasing(acc) && acc != [] && forall o :: o in acc ==> o.interval == interval
    ensures Cut(acc) == CutPoint(acc)
  {
    var last := |acc| - 1;
    if last > 0 {
      var before := acc[..last];
      CutIsNewestCut(before, interval);
      assert acc[last] in acc && before[last - 1] in before;
      FitsIffBeyondCutPoint(acc, CutPoint(acc));
      FitsIffBeyondCutPoint(before, MinInt(CutPoint(acc), last));
    }
  }

  // With one interval throughout, the window is the longest suffix of the accepted points that is
  // no longer than the capacity and younger than the interval.
  lemma LongestSuffix(offers: seq<Offer>, interval: int)
    requires offers != [] && interval > 0 && forall o :: o in offers ==> o.interval == interval
    ensures var acc := Accepted(offers);
            acc != [] ==>
              exists c: nat :: c < |acc| && Replay(offers).points == Points(acc)[c..] &&
                               forall j: nat :: j <= |acc| ==> (Fits(acc, j, interval) <==> j >= c)
  {
    var acc := Accepted(offers);
    WindowIsSuffix(offers);
    AcceptedIncreases(offers);
    if acc != [] {
      assert acc[|acc| - 1] in offers;
      CutIsNewestCut(acc, interval);
      CutStopsShort(acc);
      forall j: nat | j <= |acc| ensures Fits(acc, j, interval) <==> j >= Cut(acc) {
        FitsIffBeyondCutPoint(acc, j);
      }
    }
  }

  // ---------------------------------------------------------------------------------------------
  // Statistics recomputed from the retained points

  ghost function StatOf(points: seq<Point>, i: nat): AvgSigma {
    if points == [] then AvgSigma(0.0, 0)
    else
      var rest := StatOf(points[1..], i);
      if i < |points[0].values| then AvgSigma(rest.sum + points[0].values[i], rest.cnt + 1) else rest
  }

  lemma {:induction false} StatOfAppend(points: seq<Point>, p: Point, i: nat)
    ensures var before := StatOf(points, i);
            StatOf(points + [p], i) ==
              if i < |p.values| then AvgSigma(before.sum + p.values[i], before.cnt + 1) else before
  {
    if points != [] {
      assert (points + [p])[1..] == points[1..] + [p];
      StatOfAppend(points[1..], p, i);
    }
  }

  function SumOf(xs: seq<real>): real {
    if xs == [] then 0.0 else xs[0] + SumOf(xs[1..])
  }

  // The samples' i-th values, in order; a sample with fewer values has none.
  ghost function ValuesAt(points: seq<Point>, i: nat): seq<real> {
    if points == [] then []
    else (if i < |points[0].values| then [points[0].values[i]] else []) + ValuesAt(points[1..], i)
  }

  // A statistic is the sum and the number of the retained values.
  lemma {:induction false} StatSumsValues(points: seq<Point>, i: nat)
    ensures StatOf(points, i).sum == SumOf(ValuesAt(points, i)) && StatOf(points, i).cnt == |ValuesAt(points, i)|
  {
    if points != [] {
      StatSumsValues(points[1..], i);
      var rest := ValuesAt(points[1..], i);
      assert ValuesAt(points, i) == if i < |points[0].values| then [points[0].values[i]] + rest else rest;
    }
  }

  // Values between two bounds add up to a sum between their multiples.
  lemma {:induction false} SumBetween(xs: seq<real>, lo: real, hi: real)
    requires forall x :: x in xs ==> lo <= x <= hi
    ensures lo * |xs| as real <= SumOf(xs) <= hi * |xs| as real
  {
    if xs != [] {
      assert forall x :: x in xs[1..] ==> x in xs;
      SumBetween(xs[1..], lo, hi);
      assert xs[0] in xs && |xs| as real == 1.0 + |xs[1..]| as real;
    }
  }

  lemma {:induction false} ValuesAmong(points: seq<Point>, i: nat, lo: real, hi: real)
    requires forall q :: q in points ==> i < |q.values| && lo <= q.values[i] <= hi
    ensures |ValuesAt(points, i)| == |points| && forall x :: x in ValuesAt(points, i) ==> lo <= x <= hi
  {
    if points != [] {
      assert points[0] in points && forall q :: q in points[1..] ==> q in points;
      ValuesAmong(points[1..], i, lo, hi);
    }
  }

  // The average of samples that lie between two bounds lies between them too.
  lemma AverageBetween(points: seq<Point>, i: nat, lo: real, hi: real)
    requires points != [] && forall q :: q in points ==> i < |q.values| && lo <= q.values[i] <= hi
    ensures lo <= StatOf(points, i).Avg() <= hi && StatOf(points, i).cnt == |points|
  {
    StatSumsValues(points, i);
    ValuesAmong(points, i, lo, hi);
    SumBetween(ValuesAt(points, i), lo, hi);
    hide StatOf, SumOf, ValuesAt;
    MeanBetween(StatOf(points, i).sum, |points|, lo, hi);
  }

  lemma MeanBetween(sum: real, n: int, lo: real, hi: real)
    requires n > 0 && lo * n as real <= sum <= hi * n as real
    ensures lo <= sum / n as real <= hi
  {
    Spread(sum - lo * n as real, n);
    Spread(hi * n as real - sum, n);
    assert sum / n as real == lo + (sum - lo * n as real) / n as real;
    assert hi == sum / n as real + (hi * n as real - sum) / n as real;
  }

  lemma Spread(rest: real, n: int)
    requires rest >= 0.0 && n > 0
    ensures rest / n as real >= 0.0
  {
  }

  // The statistics agree with recomputation, for every index.
  ghost predicate Exact(stats: seq<AvgSigma>, points: seq<Point>) {
    && |stats| == CAPACITY_OF_STATISTICS
    && forall i :: 0 <= i < |stats| ==> stats[i] == StatOf(points, i)
  }

  ghost predicate FitsStatistics(points: seq<Point>) {
    forall p :: p in points ==> |p.values| <= CAPACITY_OF_STATISTICS
  }

  // cur[i] changed by one sample per value.
  ghost function Shifted(stats: seq<AvgSigma>, values: seq<real>, sign: int): (r: seq<AvgSigma>)
    requires |values| <= |stats|
    ensures |r| == |stats|
  {
    seq(|stats|, i requires 0 <= i < |stats| =>
      if i < |values| then AvgSigma(stats[i].sum + sign as real * values[i], stats[i].cnt + sign) else stats[i])
  }

  method AddAll(cur: seq<AvgSigma>, values: seq<real>) returns (r: seq<AvgSigma>)
    requires |values| <= |cur|
    ensures r == Shifted(cur, values, 1)
  {
    r := cur;
    for i := 0 to |values|
      invariant r == Shifted(cur, values[..i], 1)
    {
      r := r[i := AvgSigma(r[i].sum + values[i], r[i].cnt + 1)];
    }
    assert values[..|values|] == values;
  }

  method SubAll(cur: seq<AvgSigma>, values: seq<real>) returns (r: seq<AvgSigma>)
    requires |values| <= |cur|
    ensures r == Shifted(cur, values, -1)
  {
    r := cur;
    for i := 0 to |values|
      invariant r == Shifted(cur, values[..i], -1)
    {
      r := r[i := AvgSigma(r[i].sum - values[i], r[i].cnt - 1)];
    }
    assert values[..|values|] == values;
  }

  // Merge adds another pod's sums and counts, index by index.
  ghost function Merged(a: seq<AvgSigma>, b: seq<AvgSigma>): (r: seq<AvgSigma>)
    requires |b| <= |a|
    ensures |r| == |a|
  {
    seq(|a|, i requires 0 <= i < |a| => if i < |b| then AvgSigma(a[i].sum + b[i].sum, a[i].cnt + b[i].cnt) else a[i])
  }

  method MergeInto(cur: seq<AvgSigma>, o: seq<AvgSigma>) returns (r: seq<AvgSigma>)
    requires |o| <= |cur|
    ensures r == Merged(cur, o)
  {
    r := cur;
    for i := 0 to |o|
      invariant r == Merged(cur, o[..i])
    {
      r := r[i := AvgSigma(r[i].sum + o[i].sum, r[i].cnt + o[i].cnt)];
    }
    assert o[..|o|] == o;
  }

  lemma AddKeepsExact(stats: seq<AvgSigma>, points: seq<Point>, p: Point)
    requires Exact(stats, points) && |p.values| <= CAPACITY_OF_STATISTICS
    ensures Exact(Shifted(stats, p.values, 1), points + [p])
  {
    forall i: nat | i < |stats| ensures Shifted(stats, p.values, 1)[i] == StatOf(points + [p], i) {
      StatOfAppend(points, p, i);
    }
  }

  lemma SubKeepsExact(stats: seq<AvgSigma>, points: seq<Point>)
    requires Exact(stats, points) && points != [] && |points[0].values| <= CAPACITY_OF_STATISTICS
    ensures Exact(Shifted(stats, points[0].values, -1), points[1..])
  {
  }

  // ---------------------------------------------------------------------------------------------
  // The series, updated in place

  class SimpleTimeSeries {
    ghost const pod: string   // the key this series is filed under
    var series: seq<Point>
    var Statistics: seq<AvgSigma>
    var maxTime: int
    var cap: int
    var intervalSec: int

    ghost predicate Valid()
      reads this
    {
      && cap == CapOf(intervalSec)
      && FitsStatistics(series)
      && Exact(Statistics, series)
    }

    ghost function View(): Window
      reads this
    {
      Window(series, maxTime, intervalSec)
    }

    constructor (cfgIntervalSec: int, ghost pod: string)
      ensures Valid() && View() == Fresh(cfgIntervalSec)
      ensures this.pod == pod
    {
      this.pod := pod;
      series := [];
      Statistics := seq(CAPACITY_OF_STATISTICS, _ => AvgSigma(0.0, 0));
      maxTime := 0;
      cap := CapOf(cfgIntervalSec);
      intervalSec := cfgIntervalSec;
    }

    method ReloadCfg(newIntervalSec: int)
      requires Valid()
      modifies this`intervalSec, this`cap
      ensures Valid() && View() == old(View()).(interval := newIntervalSec)
    {
      intervalSec := newIntervalSec;
      cap := CapOf(newIntervalSec);
    }

    // The source panics on a sample with more values than there are statistics.
    method Append(time: int, values: seq<real>)
      requires Valid() && |values| <= CAPACITY_OF_STATISTICS
      modifies this`series, this`maxTime, this`Statistics
      ensures Valid()
      ensures series == Evict(old(series) + [Point(time, values)], intervalSec)
      ensures maxTime == if old(maxTime) == 0 then time else MaxInt(old(maxTime), time)
    {
      AddKeepsExact(Statistics, series, Point(time, values));
      series := series + [Point(time, values)];
      maxTime := if maxTime == 0 then time else MaxInt(maxTime, time);
      Statistics := AddAll(Statistics, values);
      while |series| > cap || (|series| > 0 && series[0].time <= series[|series| - 1].time - intervalSec)
        invariant Valid()
        invariant Evict(series, intervalSec) == Evict(old(series) + [Point(time, values)], intervalSec)
        invariant maxTime == if old(maxTime) == 0 then time else MaxInt(old(maxTime), time)
        decreases |series|
      {
        assert FrontExpired(series, intervalSec);
        SubKeepsExact(Statistics, series);
        Statistics := SubAll(Statistics, series[0].values);
        series := series[1..];
      }
    }

    // Only a sample newer than every accepted one is appended.
    method TryAppend(time: int, values: seq<real>) returns (ok: bool)
      requires Valid() && |values| <= CAPACITY_OF_STATISTICS
      modifies this`series, this`maxTime, this`Statistics
      ensures Valid()
      ensures ok <==> time > old(maxTime)
      ensures View() == Insert(old(View()), Offer(Point(time, values), intervalSec))
    {
      ok := time > maxTime;
      if ok {
        Append(time, values);
      }
    }

    method GetMinMaxTime() returns (minT: int, maxT: int)
      ensures series != [] ==> minT == series[0].time && maxT == maxTime
      ensures series == [] ==> minT == maxT == 0
    {
      if series != [] {
        return series[0].time, maxTime;
      }
      return 0, 0;
    }
  }
}
