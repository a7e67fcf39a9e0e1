// What the bookkeeping functions do to the containers and the back-pointers: each moves some pods
// and leaves every other pod where it was.
module MetaMoves {
  import opened Numbers
  import opened Wrappers
  import opened NameLists
  import opened MetaSpec

  // No container lists a pod twice, and no tenant goes by the pool's name.
  ghost predicate Lists(m: Meta) {
    WARM !in m.tenants && forall u :: NoDup(PodsOf(m, u))
  }

  // Nobody but t lists the pod.
  ghost predicate OnlyIn(m: Meta, pod: string, t: string) {
    forall u :: u != t ==> pod !in PodsOf(m, u)
  }

  // The back-pointer leads to the container that lists the pod, if any does.
  ghost predicate Found(m: Meta, pod: string) {
    && pod in m.info
    && OnlyIn(m, pod, m.info[pod].tenant)
    && (m.info[pod].tenant != WARM ==> m.info[pod].tenant in m.tenants && pod in PodsOf(m, m.info[pod].tenant))
  }

  function NameOf(to: Option<string>): string {
    if to.Some? then to.value else WARM
  }

  // From m to m2 the pods go to the container `to` (or to none); every other pod stays.
  ghost predicate Moved(m: Meta, m2: Meta, pods: set<string>, to: Option<string>) {
    && Lists(m2)
    && m2.mode == m.mode
    && m.tenants.Keys <= m2.tenants.Keys
    && (NameOf(to) != WARM ==> NameOf(to) in m2.tenants)
    && (forall u, n :: n in PodsOf(m2, u) <==> if n in pods then to == Some(u) else n in PodsOf(m, u))
    && m2.info.Keys == m.info.Keys + pods
    && (forall n :: n in m.info && n !in pods ==> m2.info[n] == m.info[n])
    && (forall n :: n in pods ==> m2.info[n].tenant == NameOf(to) && m2.info[n].ip == InfoOf(m, n).ip)
  }

  lemma MovesCompose(m: Meta, m1: Meta, m2: Meta, a: set<string>, b: set<string>, to: Option<string>)
    requires Moved(m, m1, a, to) && Moved(m1, m2, b, to)
    ensures Moved(m, m2, a + b, to)
  {
    hide PodsOf, NoDup;
  }

  // Only the list of t differs.
  ghost predicate Rewritten(m: Meta, m2: Meta, t: string, pods: seq<string>) {
    && m2.mode == m.mode
    && m2.tenants.Keys == m.tenants.Keys + (if t == WARM then {} else {t})
    && forall u :: PodsOf(m2, u) == if u == t then pods else PodsOf(m, u)
  }

  // A list that gains or loses the given pods, and no other container lists them.
  lemma RewriteMoves(m: Meta, m2: Meta, t: string, list: seq<string>, pods: set<string>, to: Option<string>)
    requires Lists(m) && Rewritten(m, m2, t, list) && NoDup(list)
    requires forall n :: n in pods ==> OnlyIn(m, n, t)
    requires to == None || to == Some(t)
    requires forall n :: n in list <==> if n in pods then to.Some? else n in PodsOf(m, t)
    requires m2.info.Keys == m.info.Keys + pods
    requires forall n :: n in m.info && n !in pods ==> m2.info[n] == m.info[n]
    requires forall n :: n in pods ==> m2.info[n].tenant == NameOf(to) && m2.info[n].ip == InfoOf(m, n).ip
    ensures Moved(m, m2, pods, to)
  {
    hide PodsOf, NoDup;
    forall u, n ensures n in PodsOf(m2, u) <==> if n in pods then to == Some(u) else n in PodsOf(m, u) {
      if n in pods { assert OnlyIn(m, n, t); }
    }
  }

  lemma FileMoves(m: Meta, pod: string, t: string, i: PodInfo)
    requires Lists(m) && OnlyIn(m, pod, t) && i.tenant == t && i.ip == InfoOf(m, pod).ip
    ensures Moved(m, WithInfo(WithPods(m, t, Append(PodsOf(m, t), pod)), pod, i), {pod}, Some(t))
  {
    AppendKeeps(PodsOf(m, t), pod);
    RewriteMoves(m, WithInfo(WithPods(m, t, Append(PodsOf(m, t), pod)), pod, i), t, Append(PodsOf(m, t), pod), {pod},
                 Some(t));
  }

  lemma TakeOutMoves(m: Meta, pod: string, t: string, now: int)
    requires Lists(m) && OnlyIn(m, pod, t) && pod in m.info && (t == WARM || t in m.tenants)
    requires pod !in PodsOf(m, t) ==> m.info[pod].tenant == WARM
    ensures Moved(m, TakeOut(m, pod, t, now), {pod}, None)
    ensures TakeOut(m, pod, t, now).tenants.Keys == m.tenants.Keys
    ensures TakeOut(m, pod, t, now).registry == m.registry
  {
    WithoutKeeps(PodsOf(m, t), pod);
    WithoutAbsentOrNot(m, pod, t);
    RewriteMoves(m, TakeOut(m, pod, t, now), t, Without(PodsOf(m, t), pod), {pod}, None);
  }

  lemma WithoutAbsentOrNot(m: Meta, pod: string, t: string)
    ensures pod !in PodsOf(m, t) ==> Without(PodsOf(m, t), pod) == PodsOf(m, t)
  {
    if pod !in PodsOf(m, t) { WithoutAbsent(PodsOf(m, t), pod); }
  }

  // Equal up to pending pods, recent results and tenant states.
  ghost predicate Same(m: Meta, m2: Meta) {
    && m2.mode == m.mode
    && m2.tenants.Keys == m.tenants.Keys
    && (forall u :: PodsOf(m2, u) == PodsOf(m, u))
    && m2.info == m.info
    && m2.registry == m.registry
  }

  lemma MovedBetweenSame(m: Meta, m1: Meta, m2: Meta, m3: Meta, pods: set<string>, to: Option<string>)
    requires Same(m, m1) && Moved(m1, m2, pods, to) && Same(m2, m3)
    ensures Moved(m, m3, pods, to)
  {
    hide PodsOf, NoDup;
  }

  lemma OnlyInSame(m: Meta, m1: Meta, pod: string, t: string)
    requires Same(m, m1) && OnlyIn(m, pod, t)
    ensures OnlyIn(m1, pod, t)
  {
    hide PodsOf;
  }

  lemma SameStates(m: Meta, t: string, st: TenantState)
    requires t in m.tenants
    ensures Same(m, WithState(m, t, st))
  {
  }

  lemma PutWarmedMoves(m: Meta, from: string, pod: string, isNew: bool, now: int)
    requires Lists(m) && OnlyIn(m, pod, WARM)
    ensures var m2 := PutWarmed(m, from, pod, isNew, now);
            && Moved(m, m2, {pod}, Some(WARM))
            && m2.registry == m.registry && m2.tenants == m.tenants
  {
    var counted := if isNew && m.pool.pending > 0 then WithPending(m, m.pool.pending - 1) else m;
    var put := Put(counted, pod, WARM);
    PutWarmedIsPut(m, from, pod, isNew, now);
    hide *;
    OnlyInSame(m, counted, pod, WARM);
    PutMoves(counted, pod);
    MovedBetweenSame(m, counted, put, PutWarmed(m, from, pod, isNew, now), {pod}, Some(WARM));
  }

  lemma PutWarmedIsPut(m: Meta, from: string, pod: string, isNew: bool, now: int)
    ensures var counted := if isNew && m.pool.pending > 0 then WithPending(m, m.pool.pending - 1) else m;
            && Same(m, counted)
            && Same(Put(counted, pod, WARM), PutWarmed(m, from, pod, isNew, now))
            && (Lists(m) ==> Lists(counted))
    ensures PutWarmed(m, from, pod, isNew, now).registry == m.registry
    ensures PutWarmed(m, from, pod, isNew, now).tenants == m.tenants
  {
    var counted := if isNew && m.pool.pending > 0 then WithPending(m, m.pool.pending - 1) else m;
    assert forall u :: PodsOf(counted, u) == PodsOf(m, u);
  }

  lemma PutMoves(m: Meta, pod: string)
    requires Lists(m) && OnlyIn(m, pod, WARM)
    ensures Moved(m, Put(m, pod, WARM), {pod}, Some(WARM))
  {
    FileMoves(m, pod, WARM, InfoOf(m, pod).(tenant := WARM));
  }

  // Filing a pod that nobody else lists with a tenant that is made ready first.
  lemma FileResumedMoves(m: Meta, pod: string, t: string, stime: int)
    requires Lists(m) && OnlyIn(m, pod, t) && t != WARM
    ensures var m2 := PutAt(WithState(m, t, Resumed), pod, t, stime);
            Moved(m, m2, {pod}, Some(t)) && m2.registry == m.registry
  {
    var ready := WithState(m, t, Resumed);
    assert forall u :: PodsOf(ready, u) == PodsOf(m, u);
    FileMoves(ready, pod, t, InfoOf(ready, pod).(tenant := t, stime := stime));
  }

  lemma MovesOn(m: Meta, m1: Meta, m2: Meta, pod: string, to: Option<string>)
    requires pod in m.info && Moved(m, m1, {pod}, None) && Moved(m1, m2, {pod}, to)
    ensures Moved(m, m2, {pod}, to)
  {
    hide PodsOf, NoDup;
  }

  lemma NowNowhere(m: Meta, out: Meta, pod: string, t: string)
    requires Moved(m, out, {pod}, None)
    ensures OnlyIn(out, pod, t)
  {
    hide PodsOf, NoDup;
  }

  // The last half of a correction: the pod is listed by t or by nobody.
  lemma RefileMoves(m: Meta, pod: string, t: string, stime: int)
    requires Lists(m) && OnlyIn(m, pod, t) && HasTarget(m, t)
    ensures var m2 := PutAt(if t == WARM then m else WithState(m, t, Resumed), pod, t, stime);
            Moved(m, m2, {pod}, Some(t)) && m2.registry == m.registry
  {
    if t == WARM {
      FileMoves(m, pod, WARM, InfoOf(m, pod).(tenant := WARM, stime := stime));
    } else {
      FileResumedMoves(m, pod, t, stime);
    }
  }

  lemma CorrectMoves(m: Meta, pod: string, t: string, stime: int, now: int)
    requires Lists(m) && Found(m, pod)
    ensures var m2 := Correct(m, pod, t, stime, now);
            && Moved(m, m2, {pod}, if HasTarget(m, t) then Some(t) else None)
            && m2.registry == m.registry
  {
    var owner := m.info[pod].tenant;
    if owner == t {
      RefileMoves(m, pod, t, stime);
    } else {
      var out := TakeOut(m, pod, owner, now);
      TakeOutMoves(m, pod, owner, now);
      assert HasTarget(out, t) == HasTarget(m, t);
      if HasTarget(m, t) {
        NowNowhere(m, out, pod, t);
        RefileMoves(out, pod, t, stime);
        MovesOn(m, out, Correct(m, pod, t, stime, now), pod, Some(t));
      }
    }
  }

  lemma UnfileMoves(m: Meta, out: Meta, pod: string, now: int)
    requires Moved(m, out, {pod}, None)
    ensures Moved(m, WithInfo(out, pod, Cleared(out, pod, now)).(registry := m.registry - {pod}), {pod}, None)
  {
    var m2 := WithInfo(out, pod, Cleared(out, pod, now)).(registry := m.registry - {pod});
    assert forall u :: PodsOf(m2, u) == PodsOf(out, u);
    hide PodsOf, NoDup;
  }

  lemma UnregisterMoves(m: Meta, pod: string, now: int)
    requires Lists(m) && Found(m, pod)
    ensures Moved(m, Unregister(m, pod, now), {pod}, None)
    ensures Unregister(m, pod, now).registry == m.registry - {pod}
  {
    var owner := m.info[pod].tenant;
    var out := TakeOut(m, pod, owner, now);
    TakeOutMoves(m, pod, owner, now);
    hide PodsOf, NoDup, TakeOut;
    UnfileMoves(m, out, pod, now);
  }

  // Splitting a container's list and clearing one part.
  lemma SplitMoves(m: Meta, t: string, kept: seq<string>, taken: seq<string>, now: int)
    requires Lists(m) && (t == WARM || t in m.tenants)
    requires forall n :: n in PodsOf(m, t) ==> n in m.info && OnlyIn(m, n, t)
    requires NoDup(kept) && forall n :: n in PodsOf(m, t) <==> n in kept || n in taken
    requires forall n :: !(n in kept && n in taken)
    ensures var m2 := ClearAll(WithPods(m, t, kept), taken, now);
            Moved(m, m2, ToSet(taken), None) && m2.registry == m.registry
  {
    RewriteMoves(m, ClearAll(WithPods(m, t, kept), taken, now), t, kept, ToSet(taken), None);
  }

  lemma TakeWarmedMoves(m: Meta, t: string, cnt: nat, now: int)
    requires Lists(m) && forall n :: n in m.pool.pods ==> n in m.info && OnlyIn(m, n, WARM)
    ensures var m2 := TakeWarmed(m, t, cnt, now);
            && Moved(m, m2, ToSet(Warmed(m, cnt)), None)
            && m2.registry == m.registry && m2.tenants == m.tenants
    ensures NoDup(Warmed(m, cnt))
  {
    var k := MinInt(cnt, |m.pool.pods|);
    assert NoDup(PodsOf(m, WARM));
    CutIsPartition(m.pool.pods, k);
    SplitMoves(m, WARM, m.pool.pods[k..], m.pool.pods[..k], now);
    var split := ClearAll(WithPods(m, WARM, m.pool.pods[k..]), m.pool.pods[..k], now);
    assert Same(split, TakeWarmed(m, t, cnt, now));
    MovedBetweenSame(m, m, split, TakeWarmed(m, t, cnt, now), ToSet(Warmed(m, cnt)), None);
  }

  lemma PopMoves(m: Meta, t: string, cnt: nat, now: int)
    requires Lists(m) && t in m.tenants && forall n :: n in PodsOf(m, t) ==> n in m.info && OnlyIn(m, n, t)
    ensures var m2 := Pop(m, t, cnt, now);
            && Moved(m, m2, ToSet(Popped(m, t, cnt)), None)
            && m2.registry == m.registry && m2.tenants.Keys == m.tenants.Keys
            && m2.tenants[t].state == m.tenants[t].state
    ensures NoDup(Popped(m, t, cnt))
  {
    var pods := PodsOf(m, t);
    var j := |pods| - PopCount(m, t, cnt);
    CutIsPartition(pods, j);
    ReverseKeeps(pods[j..]);
    SplitMoves(m, t, pods[..j], Popped(m, t, cnt), now);
  }
}
