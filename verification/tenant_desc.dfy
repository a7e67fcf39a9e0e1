// Pods and the containers that hold them (autoscale/meta.go): a container keeps its pods twice, in a
// map by name and in a list by age.
module Containers {
  import opened Numbers
  import opened NameLists
  import opened MetaSpec

  class PodDesc {
    const Name: string
    var IP: string
    var tenantName: string
    var startTimeOfAssign: int

    constructor (name: string, ip: string)
      ensures Name == name && Info() == PodInfo(ip, WARM, 0)
    {
      Name := name;
      IP := ip;
      tenantName := WARM;
      startTimeOfAssign := 0;
    }

    ghost function Info(): PodInfo
      reads this
    {
      PodInfo(IP, tenantName, startTimeOfAssign)
    }

    method SetTenantInfoAndStimeOfAssign(tenant: string, startTime: int)
      modifies this
      ensures Info() == old(Info()).(tenant := tenant, stime := startTime)
    {
      tenantName := tenant;
      startTimeOfAssign := startTime;
    }

    method SetTenantInfo(tenant: string)
      modifies this
      ensures Info() == old(Info()).(tenant := tenant)
    {
      tenantName := tenant;
    }

    method ClearTenantInfo(now: int)
      modifies this
      ensures Info() == old(Info()).(tenant := WARM, stime := now)
    {
      tenantName := WARM;
      startTimeOfAssign := now;
    }
  }

  ghost function NamesOf(pods: seq<PodDesc>): (r: seq<string>)
    ensures |r| == |pods| && forall i :: 0 <= i < |r| ==> r[i] == pods[i].Name
  {
    seq(|pods|, i requires 0 <= i < |pods| => pods[i].Name)
  }

  // The map and the list hold the same pods: each pod once, under its own name.
  ghost predicate Coherent(podMap: map<string, PodDesc>, pods: seq<PodDesc>) {
    && (forall i, j :: 0 <= i < j < |pods| ==> pods[i].Name != pods[j].Name)
    && (forall i :: 0 <= i < |pods| ==> pods[i].Name in podMap && podMap[pods[i].Name] == pods[i])
    && (forall k :: k in podMap ==> podMap[k] in pods && podMap[k].Name == k)
  }

  lemma NamesInMap(podMap: map<string, PodDesc>, pods: seq<PodDesc>)
    requires Coherent(podMap, pods)
    ensures NoDup(NamesOf(pods))
    ensures forall n :: n in NamesOf(pods) <==> n in podMap
  {
    forall n | n in podMap ensures n in NamesOf(pods) {
      var i :| 0 <= i < |pods| && pods[i] == podMap[n];
      assert NamesOf(pods)[i] == n;
    }
  }

  // The map counts what the list lists.
  lemma MapCountsList(podMap: map<string, PodDesc>, pods: seq<PodDesc>)
    requires Coherent(podMap, pods)
    ensures |podMap| == |pods|
  {
    NamesInMap(podMap, pods);
    SetOfDistinct(NamesOf(pods));
    assert podMap.Keys == ToSet(NamesOf(pods));
  }

  lemma NamesGrow(pods: seq<PodDesc>, p: PodDesc)
    ensures NamesOf(pods + [p]) == NamesOf(pods) + [p.Name]
  {
  }

  lemma NoNames()
    ensures NamesOf([]) == []
  {
  }

  lemma NamesShrink(pods: seq<PodDesc>, i: nat)
    requires i < |pods|
    ensures multiset(NamesOf(pods)) == multiset(NamesOf(pods[..i] + pods[i + 1..])) + multiset{pods[i].Name}
  {
    var names := NamesOf(pods);
    assert NamesOf(pods[..i] + pods[i + 1..]) == names[..i] + names[i + 1..];
    assert names == names[..i] + [names[i]] + names[i + 1..];
  }

  function Added(podMap: map<string, PodDesc>, pods: seq<PodDesc>, v: PodDesc): seq<PodDesc> {
    if v.Name in podMap then pods else pods + [v]
  }

  lemma AddedIsCoherent(podMap: map<string, PodDesc>, pods: seq<PodDesc>, v: PodDesc)
    requires Coherent(podMap, pods) && (v.Name in podMap ==> podMap[v.Name] == v)
    ensures Coherent(podMap[v.Name := v], Added(podMap, pods, v))
    ensures NamesOf(Added(podMap, pods, v)) == Append(NamesOf(pods), v.Name)
  {
    NamesInMap(podMap, pods);
    NamesGrow(pods, v);
  }

  lemma {:induction false} WithoutLast(names: seq<string>, last: string, n: string)
    ensures Without(names + [last], n) == Without(names, n) + if last == n then [] else [last]
  {
    if names == [] {
    } else {
      WithoutLast(names[1..], last, n);
      assert (names + [last])[1..] == names[1..] + [last];
    }
  }

  ghost function Removed(pods: seq<PodDesc>, v: PodDesc): (r: seq<PodDesc>)
    ensures forall i :: 0 <= i < |r| ==> r[i] in pods && r[i] != v
  {
    if pods == [] then []
    else Removed(pods[..|pods| - 1], v) + if pods[|pods| - 1] == v then [] else [pods[|pods| - 1]]
  }

  lemma {:induction false} RemovedMembers(pods: seq<PodDesc>, v: PodDesc)
    ensures forall p :: p in pods && p != v ==> p in Removed(pods, v)
  {
    if pods != [] {
      RemovedMembers(pods[..|pods| - 1], v);
      assert pods == pods[..|pods| - 1] + [pods[|pods| - 1]];
    }
  }

  lemma {:induction false} RemovedKeepsOrder(podMap: map<string, PodDesc>, pods: seq<PodDesc>, v: PodDesc)
    requires forall i :: 0 <= i < |pods| ==> pods[i].Name in podMap && podMap[pods[i].Name] == pods[i]
    requires v.Name in podMap && podMap[v.Name] == v
    requires forall i, j :: 0 <= i < j < |pods| ==> pods[i].Name != pods[j].Name
    ensures NamesOf(Removed(pods, v)) == Without(NamesOf(pods), v.Name)
    ensures forall i, j :: 0 <= i < j < |Removed(pods, v)| ==> Removed(pods, v)[i].Name != Removed(pods, v)[j].Name
  {
    if pods != [] {
      var rest := pods[..|pods| - 1];
      var last := pods[|pods| - 1];
      assert pods == rest + [last];
      RemovedKeepsOrder(podMap, rest, v);
      NamesGrow(rest, last);
      NamesGrow(Removed(rest, v), last);
      WithoutLast(NamesOf(rest), last.Name, v.Name);
      forall i | 0 <= i < |Removed(rest, v)| ensures Removed(rest, v)[i].Name != last.Name {
        assert Removed(rest, v)[i] in rest;
      }
    }
  }

  lemma RemovedIsCoherent(podMap: map<string, PodDesc>, pods: seq<PodDesc>, v: PodDesc)
    requires Coherent(podMap, pods) && v.Name in podMap && podMap[v.Name] == v
    ensures Coherent(podMap - {v.Name}, Removed(pods, v))
    ensures NamesOf(Removed(pods, v)) == Without(NamesOf(pods), v.Name)
  {
    RemovedKeepsOrder(podMap, pods, v);
    RemovedMembers(pods, v);
    forall i | 0 <= i < |Removed(pods, v)|
      ensures Removed(pods, v)[i].Name in podMap - {v.Name} && podMap[Removed(pods, v)[i].Name] == Removed(pods, v)[i]
    {
      assert Removed(pods, v)[i] in pods;
    }
  }

  lemma PoppedIsCoherent(podMap: map<string, PodDesc>, pods: seq<PodDesc>)
    requires Coherent(podMap, pods) && pods != []
    ensures Coherent(podMap - {pods[|pods| - 1].Name}, pods[..|pods| - 1])
    ensures pods[|pods| - 1].Name in podMap
  {
  }

  // The last k of `all`, newest first, behind what `ret` held.
  ghost predicate NewestFirst(all: seq<PodDesc>, k: nat, ret: seq<PodDesc>, out: seq<PodDesc>) {
    && k <= |all| && |out| == |ret| + k
    && (forall i :: 0 <= i < |ret| ==> out[i] == ret[i])
    && (forall i :: |ret| <= i < |out| ==> out[i] == all[|all| - 1 - (i - |ret|)])
  }

  lemma NewestNames(all: seq<PodDesc>, left: nat, out: seq<PodDesc>)
    requires left <= |all| && NewestFirst(all, |all| - left, [], out)
    ensures NamesOf(out) == Reverse(NamesOf(all)[left..])
    ensures NamesOf(all[..left]) == NamesOf(all)[..left]
  {
    ReverseAt(NamesOf(all)[left..]);
  }

  ghost function InfosOf(pods: seq<PodDesc>): (r: seq<PodInfo>)
    reads pods
    ensures |r| == |pods| && forall i :: 0 <= i < |r| ==> r[i] == pods[i].Info()
  {
    seq(|pods|, i requires 0 <= i < |pods| reads pods => pods[i].Info())
  }

  // Exactly the pods from position left on were popped.
  lemma PoppedNames(podMap: map<string, PodDesc>, all: seq<PodDesc>, left: nat, pods: seq<PodDesc>)
    requires Coherent(podMap, all) && left <= |all| && NewestFirst(all, |all| - left, [], pods)
    ensures forall i :: 0 <= i < |all| ==> (all[i].Name in NamesOf(pods) <==> left <= i)
    ensures forall n :: n in NamesOf(pods) ==> n in podMap
    ensures forall i :: 0 <= i < |pods| ==> pods[i].Name in podMap && podMap[pods[i].Name] == pods[i]
  {
    forall i | 0 <= i < |all| ensures all[i].Name in NamesOf(pods) <==> left <= i {
      if left <= i { assert NamesOf(pods)[|all| - 1 - i] == all[i].Name; }
      if all[i].Name in NamesOf(pods) {
        var j :| 0 <= j < |pods| && NamesOf(pods)[j] == all[i].Name;
        assert pods[j] == all[|all| - 1 - j];
      }
    }
  }

  // What pods recorded before, cleared from position j on.
  ghost predicate ClearedFrom(pods: seq<PodDesc>, before: seq<PodInfo>, j: nat, now: int)
    requires |before| == |pods|
    reads pods
  {
    && (forall i :: 0 <= i < |pods| && i < j ==> pods[i].Info() == before[i])
    && (forall i :: j <= i < |pods| ==> pods[i].Info() == before[i].(tenant := WARM, stime := now))
  }

  // PopPods under way: of the pods all, which were registered in whole and recorded before, the first
  // left are still there and out holds the others behind ret.
  datatype Popping = Popping(whole: map<string, PodDesc>, all: seq<PodDesc>, before: seq<PodInfo>, left: nat,
                             ret: seq<PodDesc>, out: seq<PodDesc>, now: int)

  lemma OthersDiffer(podMap: map<string, PodDesc>, pods: seq<PodDesc>, k: nat)
    requires Coherent(podMap, pods) && k < |pods|
    ensures forall i :: 0 <= i < |pods| && i != k ==> pods[i] != pods[k]
  {
  }

  ghost predicate ByStart(pods: seq<PodDesc>)
    reads pods
  {
    forall i, j :: 0 <= i < j < |pods| ==> pods[i].startTimeOfAssign <= pods[j].startTimeOfAssign
  }

  // sort.Slice promises an ordered permutation and nothing about ties.
  method SortByStart(pods: seq<PodDesc>) returns (sorted: seq<PodDesc>)
    ensures ByStart(sorted) && multiset(sorted) == multiset(pods)
  {
    sorted := [];
    for i := 0 to |pods|
      invariant ByStart(sorted) && multiset(sorted) == multiset(pods[..i])
    {
      hide ByStart;
      assert pods[..i + 1] == pods[..i] + [pods[i]];
      sorted := InsertByStart(sorted, pods[i]);
    }
    assert pods[..|pods|] == pods;
  }

  method InsertByStart(sorted: seq<PodDesc>, p: PodDesc) returns (longer: seq<PodDesc>)
    requires ByStart(sorted)
    ensures ByStart(longer) && multiset(longer) == multiset(sorted) + multiset{p}
  {
    var k := 0;
    while k < |sorted| && sorted[k].startTimeOfAssign < p.startTimeOfAssign
      invariant k <= |sorted|
      invariant forall j :: 0 <= j < k ==> sorted[j].startTimeOfAssign <= p.startTimeOfAssign
    {
      k := k + 1;
    }
    assert sorted == sorted[..k] + sorted[k..];
    longer := sorted[..k] + [p] + sorted[k..];
    SplicedByStart(sorted, p, k);
  }

  lemma SplicedByStart(sorted: seq<PodDesc>, p: PodDesc, k: nat)
    requires ByStart(sorted) && k <= |sorted|
    requires forall j :: 0 <= j < k ==> sorted[j].startTimeOfAssign <= p.startTimeOfAssign
    requires k < |sorted| ==> p.startTimeOfAssign <= sorted[k].startTimeOfAssign
    ensures ByStart(sorted[..k] + [p] + sorted[k..])
  {
    var longer := sorted[..k] + [p] + sorted[k..];
    forall i, j | 0 <= i < j < |longer| ensures longer[i].startTimeOfAssign <= longer[j].startTimeOfAssign {
      assert longer[i] == if i < k then sorted[i] else if i == k then p else sorted[i - 1];
      assert longer[j] == if j < k then sorted[j] else if j == k then p else sorted[j - 1];
    }
  }

  lemma TwiceInList<T>(list: seq<T>, i: nat, j: nat)
    requires i < j < |list| && list[i] == list[j]
    ensures multiset(list)[list[i]] >= 2
  {
    assert list == list[..j] + list[j..];
    assert list[i] in multiset(list[..j]) && list[j] in multiset(list[j..]) by {
      assert list[i] == list[..j][i] && list[j] == list[j..][0];
    }
  }

  lemma {:induction false} OnceInList(pods: seq<PodDesc>, p: PodDesc)
    requires forall i, j :: 0 <= i < j < |pods| ==> pods[i] != pods[j]
    ensures multiset(pods)[p] <= 1
  {
    if pods != [] {
      var rest := pods[..|pods| - 1];
      assert pods == rest + [pods[|pods| - 1]];
      OnceInList(rest, p);
      assert p in multiset(rest) <==> p in rest;
    }
  }

  lemma PermutedIsCoherent(podMap: map<string, PodDesc>, pods: seq<PodDesc>, sorted: seq<PodDesc>)
    requires Coherent(podMap, pods) && multiset(sorted) == multiset(pods)
    ensures Coherent(podMap, sorted)
    ensures forall n :: n in NamesOf(sorted) <==> n in NamesOf(pods)
  {
    forall p ensures p in sorted <==> p in pods {
      assert p in multiset(sorted) <==> p in multiset(pods);
    }
    forall i | 0 <= i < |sorted| ensures sorted[i] in pods {}
    forall i, j | 0 <= i < j < |sorted| ensures sorted[i].Name != sorted[j].Name {
      if sorted[i].Name == sorted[j].Name {
        TwiceInList(sorted, i, j);
        OnceInList(pods, sorted[i]);
      }
    }
    assert Coherent(podMap, sorted);
    NamesInMap(podMap, pods);
    NamesInMap(podMap, sorted);
  }

  class TenantDesc {
    const Name: string
    var podMap: map<string, PodDesc>
    var podList: seq<PodDesc>
    var State: TenantState

    ghost predicate Valid()
      reads this
    {
      Coherent(podMap, podList)
    }

    ghost function Names(): seq<string>
      reads this
    {
      NamesOf(podList)
    }

    constructor (name: string, state: TenantState)
      ensures Valid() && Name == name && podMap == map[] && podList == [] && State == state
    {
      Name := name;
      podMap := map[];
      podList := [];
      State := state;
    }

    method SetPod(k: string, v: PodDesc)
      requires Valid() && v.Name == k && (k in podMap ==> podMap[k] == v)
      modifies this`podMap, this`podList, v
      ensures Valid() && podMap == old(podMap)[k := v] && Names() == Append(old(Names()), k)
      ensures v.Info() == old(v.Info()).(tenant := Name)
    {
      hide Coherent, NamesOf;
      AddedIsCoherent(podMap, podList, v);
      if k !in podMap {
        podList := podList + [v];
      }
      podMap := podMap[k := v];
      v.SetTenantInfo(Name);
    }

    method SetPodWithTenantInfo(k: string, v: PodDesc, startTime: int)
      requires Valid() && v.Name == k && (k in podMap ==> podMap[k] == v)
      modifies this`podMap, this`podList, v
      ensures Valid() && podMap == old(podMap)[k := v] && Names() == Append(old(Names()), k)
      ensures v.Info() == old(v.Info()).(tenant := Name, stime := startTime)
    {
      hide Coherent, NamesOf;
      AddedIsCoherent(podMap, podList, v);
      if k !in podMap {
        podList := podList + [v];
      }
      podMap := podMap[k := v];
      v.SetTenantInfoAndStimeOfAssign(Name, startTime);
    }

    method RemovePod(k: string, now: int) returns (r: PodDesc?)
      requires Valid() && (k in podMap ==> podMap[k].Name == k)
      modifies this`podMap, this`podList, if k in podMap then {podMap[k]} else {}
      ensures Valid() && podMap == old(podMap) - {k} && Names() == Without(old(Names()), k)
      ensures if k in old(podMap) then r == old(podMap[k]) else r == null
      ensures r != null ==> r.Info() == old(podMap[k].Info()).(tenant := WARM, stime := now)
    {
      hide Coherent, NamesOf;
      if k !in podMap {
        NamesInMap(podMap, podList);
        WithoutAbsent(Names(), k);
        return null;
      }
      var v := podMap[k];
      RemovedIsCoherent(podMap, podList, v);
      var items, newArr := podList, [];
      for i := 0 to |items|
        invariant newArr == Removed(items[..i], v)
      {
        assert items[..i + 1][..i] == items[..i];
        if v != items[i] {
          newArr := newArr + [items[i]];
        }
      }
      assert items[..|items|] == items;
      podList := newArr;
      podMap := podMap - {k};
      v.ClearTenantInfo(now);
      r := v;
    }

    method PopOnePod(now: int) returns (r: PodDesc?)
      requires Valid()
      modifies this`podMap, this`podList, if podList != [] then {podList[|podList| - 1]} else {}
      ensures Valid()
      ensures old(podList) == [] ==> r == null && podList == [] && podMap == old(podMap)
      ensures old(podList) != [] ==>
                && r == old(podList[|podList| - 1]) && podList == old(podList[..|podList| - 1])
                && podMap == old(podMap) - {r.Name}
                && r.Info() == old(podList[|podList| - 1].Info()).(tenant := WARM, stime := now)
    {
      hide Coherent;
      if |podList| > 0 {
        PoppedIsCoherent(podMap, podList);
        var curPod := podList[|podList| - 1];
        podList := podList[..|podList| - 1];
        if curPod.Name in podMap {
          podMap := podMap - {curPod.Name};
        }
        curPod.ClearTenantInfo(now);
        r := curPod;
      } else {
        r := null;
      }
    }

    // The newest cnt pods leave, newest first; what could not be popped is returned.
    method PopPods(cnt: int, ret: seq<PodDesc>, now: int) returns (rest: int, out: seq<PodDesc>)
      requires Valid()
      modifies this`podMap, this`podList, podList
      ensures var k := MaxInt(MinInt(cnt, |old(podList)|), 0);
              && Valid() && rest == cnt - k
              && podList == old(podList)[..|old(podList)| - k]
              && NewestFirst(old(podList), k, ret, out)
              && ClearedFrom(old(podList), old(InfosOf(podList)), |old(podList)| - k, now)
    {
      hide IsPopping, Coherent, NewestFirst, ClearedFrom, InfosOf;
      rest, out := cnt, ret;
      ghost var p := Popping(podMap, podList, InfosOf(podList), |podList|, ret, ret, now);
      PoppingStarts(p);
      while rest > 0
        invariant Valid() && p.left <= |p.all| && podList == p.all[..p.left]
        invariant p == Popping(old(podMap), old(podList), old(InfosOf(podList)), p.left, ret, out, now)
        invariant rest == cnt - (|p.all| - p.left) && rest >= MinInt(cnt, 0)
        invariant IsPopping(p)
      {
        var more;
        more, out := PopInto(out, now, p);
        if !more { break; }
        p := p.(left := p.left - 1, out := out);
        rest := rest - 1;
      }
      PoppingEnds(p);
    }

    // One round of PopPods' loop.
    method PopInto(out: seq<PodDesc>, now: int, ghost p: Popping) returns (more: bool, longer: seq<PodDesc>)
      requires Valid() && p.left <= |p.all| && podList == p.all[..p.left]
      requires IsPopping(p) && p.out == out && p.now == now
      modifies this`podMap, this`podList, if podList != [] then {podList[|podList| - 1]} else {}
      ensures Valid() && more == (p.left > 0)
      ensures more ==> podList == p.all[..p.left - 1] && IsPopping(p.(left := p.left - 1, out := longer))
      ensures !more ==> longer == out && podList == old(podList) && IsPopping(p)
    {
      hide IsPopping, Coherent;
      var v := PopOnePod(now);
      if v == null { return false, out; }
      StillPopping(p);
      return true, out + [v];
    }

    ghost predicate IsPopping(p: Popping)
      reads p.all
    {
      && |p.before| == |p.all| && p.left <= |p.all| && Coherent(p.whole, p.all)
      && NewestFirst(p.all, |p.all| - p.left, p.ret, p.out) && ClearedFrom(p.all, p.before, p.left, p.now)
    }

    lemma PoppingStarts(p: Popping)
      requires Coherent(p.whole, p.all) && p.before == InfosOf(p.all) && p.left == |p.all| && p.out == p.ret
      ensures IsPopping(p)
    {
    }

    lemma PoppingEnds(p: Popping)
      requires IsPopping(p)
      ensures |p.before| == |p.all| && p.left <= |p.all|
      ensures NewestFirst(p.all, |p.all| - p.left, p.ret, p.out) && ClearedFrom(p.all, p.before, p.left, p.now)
    {
    }

    twostate lemma StillPopping(p: Popping)
      requires 0 < p.left <= |p.all| && old(IsPopping(p))
      requires var v := p.all[p.left - 1];
               && v.Info() == old(v.Info()).(tenant := WARM, stime := p.now)
               && (forall i :: 0 <= i < |p.all| && p.all[i] != v ==> p.all[i].Info() == old(p.all[i].Info()))
      ensures IsPopping(p.(left := p.left - 1, out := p.out + [p.all[p.left - 1]]))
    {
      OthersDiffer(p.whole, p.all, p.left - 1);
      hide Coherent;
    }

    method SortPodsAtStartUp()
      requires Valid()
      modifies this`podList
      ensures Valid() && ByStart(podList) && multiset(podList) == multiset(old(podList)) && |podList| == |old(podList)|
      ensures forall n :: n in Names() <==> n in old(Names())
    {
      var sorted := SortByStart(podList);
      PermutedIsCoherent(podMap, podList, sorted);
      assert |multiset(sorted)| == |sorted| && |multiset(podList)| == |podList|;
      podList := sorted;
    }

    method SwitchState(from: TenantState, to: TenantState) returns (swapped: bool)
      modifies this`State
      ensures swapped == (old(State) == from)
      ensures State == if swapped then to else old(State)
    {
      swapped := State == from;
      if swapped {
        State := to;
      }
    }

    // A paused tenant that holds pods must be corrected to Resumed.
    method IsStateCorrect() returns (ok: bool, state: TenantState)
      requires Valid()
      ensures ok <==> !(State == Paused && Names() != [])
      ensures state == if ok then State else Resumed
    {
      MapCountsList(podMap, podList);
      if State == Paused && |podMap| > 0 {
        return false, Resumed;
      }
      return true, State;
    }

    method GetPodNames() returns (names: seq<string>)
      ensures names == Names()
    {
      names := [];
      for i := 0 to |podList|
        invariant names == NamesOf(podList[..i])
      {
        assert podList[..i + 1] == podList[..i] + [podList[i]];
        NamesGrow(podList[..i], podList[i]);
        names := names + [podList[i].Name];
      }
      assert podList[..|podList|] == podList;
    }

    method GetCntOfPods() returns (cnt: nat)
      requires Valid()
      ensures cnt == |Names()|
    {
      MapCountsList(podMap, podList);
      cnt := |podMap|;
    }
  }
}
