// The bookkeeping of pods and tenants on plain values (autoscale/meta.go), one function per critical
// section. A container is the list of its pods' names; PodInfo is what a PodDesc records.
module MetaSpec {
  import opened Numbers
  import opened NameLists

  datatype RunMode = LocalMode | ServerlessMode | DedicatedMode

  datatype TenantState = Resumed | Resuming | Paused | Pausing

  datatype PodInfo = PodInfo(ip: string, tenant: string, stime: int)

  datatype Tenant = Tenant(pods: seq<string>, state: TenantState)

  datatype OpResult = OpResult(failCnt: int, lastTs: int)

  datatype Pool = Pool(pods: seq<string>, pending: int, results: map<string, OpResult>)

  // info keeps every pod ever seen; registry is PodDescMap.
  datatype Meta = Meta(
    mode: RunMode,
    tenants: map<string, Tenant>,
    pool: Pool,
    registry: set<string>,
    info: map<string, PodInfo>)

  const WARM := ""   // the name of the warm pool, and the tenant name of a pod no tenant holds

  function InfoOf(m: Meta, pod: string): PodInfo {
    if pod in m.info then m.info[pod] else PodInfo("", WARM, 0)
  }

  function TenantOf(m: Meta, t: string): Tenant {
    if t in m.tenants then m.tenants[t] else Tenant([], Resumed)
  }

  // ---------------------------------------------------------------------------------------------
  // Containers

  function WithInfo(m: Meta, pod: string, i: PodInfo): Meta {
    m.(info := m.info[pod := i])
  }

  function WithPods(m: Meta, t: string, pods: seq<string>): Meta {
    if t == WARM then m.(pool := m.pool.(pods := pods))
    else m.(tenants := m.tenants[t := TenantOf(m, t).(pods := pods)])
  }

  function PodsOf(m: Meta, t: string): seq<string> {
    if t == WARM then m.pool.pods else TenantOf(m, t).pods
  }

  function WithState(m: Meta, t: string, st: TenantState): Meta {
    m.(tenants := m.tenants[t := TenantOf(m, t).(state := st)])
  }

  // SetPod: the start time of the assignment is kept.
  function Put(m: Meta, pod: string, t: string): Meta {
    WithInfo(WithPods(m, t, Append(PodsOf(m, t), pod)), pod, InfoOf(m, pod).(tenant := t))
  }

  // SetPodWithTenantInfo.
  function PutAt(m: Meta, pod: string, t: string, stime: int): Meta {
    WithInfo(WithPods(m, t, Append(PodsOf(m, t), pod)), pod, InfoOf(m, pod).(tenant := t, stime := stime))
  }

  function Cleared(m: Meta, pod: string, now: int): PodInfo {
    InfoOf(m, pod).(tenant := WARM, stime := now)
  }

  // RemovePod.
  function TakeOut(m: Meta, pod: string, t: string, now: int): Meta {
    if pod in PodsOf(m, t)
    then WithInfo(WithPods(m, t, Without(PodsOf(m, t), pod)), pod, Cleared(m, pod, now))
    else m
  }

  function ClearAll(m: Meta, pods: seq<string>, now: int): Meta {
    m.(info := map p | p in m.info.Keys + (set q | q in pods) ::
                 if p in pods then Cleared(m, p, now) else m.info[p])
  }

  // PopPods: the newest cnt pods, newest first.
  function PopCount(m: Meta, t: string, cnt: nat): nat {
    MinInt(cnt, |PodsOf(m, t)|)
  }

  function Popped(m: Meta, t: string, cnt: nat): seq<string> {
    var pods := PodsOf(m, t);
    Reverse(pods[|pods| - PopCount(m, t, cnt)..])
  }

  function Pop(m: Meta, t: string, cnt: nat, now: int): Meta {
    var pods := PodsOf(m, t);
    ClearAll(WithPods(m, t, pods[..|pods| - PopCount(m, t, cnt)]), Popped(m, t, cnt), now)
  }

  // ---------------------------------------------------------------------------------------------
  // The warm pool

  function WithResult(m: Meta, t: string, r: OpResult): Meta {
    if t == WARM then m else m.(pool := m.pool.(results := m.pool.results[t := r]))
  }

  // getWarmedPods: the oldest cnt pods, oldest first.
  function Warmed(m: Meta, cnt: nat): seq<string> {
    m.pool.pods[..MinInt(cnt, |m.pool.pods|)]
  }

  function TakeWarmed(m: Meta, t: string, cnt: nat, now: int): Meta {
    var k := MinInt(cnt, |m.pool.pods|);
    WithResult(ClearAll(WithPods(m, WARM, m.pool.pods[k..]), m.pool.pods[..k], now), t, OpResult(cnt - k, now))
  }

  function WithPending(m: Meta, pending: int): Meta {
    m.(pool := m.pool.(pending := pending))
  }

  // putWarmedPod.
  function PutWarmed(m: Meta, from: string, pod: string, isNew: bool, now: int): Meta {
    var counted := if isNew && m.pool.pending > 0 then WithPending(m, m.pool.pending - 1) else m;
    WithResult(Put(counted, pod, WARM), from, OpResult(0, now))
  }

  // ---------------------------------------------------------------------------------------------
  // Registry and corrections

  // UpdatePod.
  function UpdatePod(m: Meta, pod: string, ip: string, now: int): Meta {
    if pod !in m.registry then
      var known := WithInfo(m.(registry := m.registry + {pod}), pod, PodInfo(ip, WARM, 0));
      if ip != "" then PutWarmed(known, WARM, pod, true, now) else known
    else if ip == "" then m
    else
      var known := WithInfo(m, pod, InfoOf(m, pod).(ip := ip));
      if InfoOf(m, pod).ip == "" then PutWarmed(known, WARM, pod, true, now) else known
  }

  // removePodFromClusterWithoutLock, for a registered pod.
  function Unregister(m: Meta, pod: string, now: int): Meta {
    var owner := InfoOf(m, pod).tenant;
    var out := if owner == WARM || owner in m.tenants then TakeOut(m, pod, owner, now) else m;
    WithInfo(out, pod, Cleared(out, pod, now)).(registry := m.registry - {pod})
  }

  // One pod of a Kubernetes listing.
  datatype Listed = Listed(name: string, ip: string)

  // The two halves of loadPods: update every pod of the listing, then unregister the given pods.
  function LoadAll(m: Meta, pods: seq<Listed>, now: int): Meta {
    if pods == [] then m
    else UpdatePod(LoadAll(m, pods[..|pods| - 1], now), pods[|pods| - 1].name, pods[|pods| - 1].ip, now)
  }

  function UnregisterAll(m: Meta, gone: seq<string>, now: int): Meta {
    if gone == [] then m
    else Unregister(UnregisterAll(m, gone[..|gone| - 1], now), gone[|gone| - 1], now)
  }

  predicate AutoRegisters(m: Meta) {
    m.mode != DedicatedMode
  }

  // Where a correction puts a pod: nowhere when a dedicated cluster does not know the tenant.
  predicate HasTarget(m: Meta, t: string) {
    t == WARM || t in m.tenants || AutoRegisters(m)
  }

  // UpdateLocalMetaPodOfTenant.
  function Correct(m: Meta, pod: string, t: string, stime: int, now: int): Meta {
    var owner := InfoOf(m, pod).tenant;
    var out := if owner != t && (owner == WARM || owner in m.tenants) then TakeOut(m, pod, owner, now) else m;
    if t == WARM then PutAt(out, pod, WARM, stime)
    else if t in m.tenants || AutoRegisters(m) then PutAt(WithState(out, t, Resumed), pod, t, stime)
    else out
  }

  // A supervisor's answer to a scan: the tenant it serves and since when.
  datatype Answer = Answer(tenant: string, stime: int, isUnassigning: bool)

  // ApiGetCurrentTenantAndCorrect: what makes an answer a correction.
  predicate NeedsCorrection(m: Meta, pod: string, a: Answer, atStartup: bool) {
    var i := InfoOf(m, pod);
    (atStartup || i.tenant != WARM) && !a.isUnassigning && (i.tenant != a.tenant || i.stime != a.stime)
  }

  // SetupTenantWithConfig and its relatives.
  function Setup(m: Meta, t: string, st: TenantState): Meta {
    if t in m.tenants then m else m.(tenants := m.tenants[t := Tenant([], st)])
  }

  // A compare-and-swap of the tenant's state.
  function Swap(m: Meta, t: string, from: TenantState, to: TenantState): Meta {
    if TenantOf(m, t).state == from then WithState(m, t, to) else m
  }

  // ---------------------------------------------------------------------------------------------
  // The sort at startup

  ghost predicate SortedByStart(m: Meta, pods: seq<string>) {
    forall i, j :: 0 <= i < j < |pods| ==> InfoOf(m, pods[i]).stime <= InfoOf(m, pods[j]).stime
  }

  // Only the order of the tenants' lists differs.
  ghost predicate Rearranged(m: Meta, m2: Meta) {
    && m2 == m.(tenants := m2.tenants) && m2.tenants.Keys == m.tenants.Keys
    && forall t :: t in m.tenants ==>
         && m2.tenants[t].state == m.tenants[t].state && |m2.tenants[t].pods| == |m.tenants[t].pods|
         && (NoDup(m.tenants[t].pods) ==> NoDup(m2.tenants[t].pods))
         && forall n :: n in m2.tenants[t].pods <==> n in m.tenants[t].pods
  }

  // A removal right after the sort takes the pods assigned latest, the very latest first.
  lemma LatestLeaveFirst(m: Meta, t: string, cnt: nat, now: int)
    requires t != WARM && SortedByStart(m, PodsOf(m, t))
    ensures var out, left := Popped(m, t, cnt), PodsOf(Pop(m, t, cnt, now), t);
            && |out| == MinInt(cnt, |PodsOf(m, t)|) && |out| + |left| == |PodsOf(m, t)|
            && (forall i, j :: 0 <= i < |out| && 0 <= j < |left| ==>
                InfoOf(m, left[j]).stime <= InfoOf(m, out[i]).stime)
            && (forall i, j :: 0 <= i < j < |out| ==> InfoOf(m, out[j]).stime <= InfoOf(m, out[i]).stime)
  {
    hide InfoOf, Popped, Pop, PodsOf;
    var pods, out, left := PodsOf(m, t), Popped(m, t, cnt), PodsOf(Pop(m, t, cnt, now), t);
    PopLeavesPrefix(m, t, cnt, now);
    PoppedLength(m, t, cnt);
    forall i, j | 0 <= i < |out| && 0 <= j < |left| ensures InfoOf(m, left[j]).stime <= InfoOf(m, out[i]).stime {
      PoppedAt(m, t, cnt, i);
      assert left[j] == pods[j];
    }
    forall i, j | 0 <= i < j < |out| ensures InfoOf(m, out[j]).stime <= InfoOf(m, out[i]).stime {
      PoppedAt(m, t, cnt, i);
      PoppedAt(m, t, cnt, j);
    }
  }

  lemma PoppedLength(m: Meta, t: string, cnt: nat)
    ensures |Popped(m, t, cnt)| == PopCount(m, t, cnt) <= |PodsOf(m, t)|
  {
  }

  lemma PoppedAt(m: Meta, t: string, cnt: nat, i: nat)
    requires i < |Popped(m, t, cnt)|
    ensures i < |PodsOf(m, t)| && Popped(m, t, cnt)[i] == PodsOf(m, t)[|PodsOf(m, t)| - 1 - i]
  {
    var pods := PodsOf(m, t);
    ReverseAt(pods[|pods| - PopCount(m, t, cnt)..]);
  }

  lemma PopLeavesPrefix(m: Meta, t: string, cnt: nat, now: int)
    requires t != WARM
    ensures PodsOf(Pop(m, t, cnt, now), t) == PodsOf(m, t)[..|PodsOf(m, t)| - PopCount(m, t, cnt)]
  {
    hide Popped;
  }
}
