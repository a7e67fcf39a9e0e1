// Object graphs as values: what the fields of the tenants, the pool, the pods and the registry say, and
// when they say the same as a MetaSpec value.
module MetaObjects {
  import opened Numbers
  import opened NameLists
  import opened MetaSpec
  import opened Containers

  // What a container's fields say.
  datatype View = View(podMap: map<string, PodDesc>, podList: seq<PodDesc>, state: TenantState)

  // What all the objects say; the warm pool is the view named WARM, known has every pod ever registered.
  datatype Objects = Objects(
    mode: RunMode,
    views: map<string, View>,
    known: map<string, PodDesc>,
    infos: map<string, PodInfo>,
    registry: map<string, PodDesc>,
    pending: int,
    results: map<string, OpResult>)

  ghost predicate Tidy(v: View, known: map<string, PodDesc>) {
    Coherent(v.podMap, v.podList) && forall n :: n in v.podMap ==> n in known && known[n] == v.podMap[n]
  }

  ghost predicate ViewAgrees(o: Objects, m: Meta, t: string)
    requires t in o.views
  {
    && Tidy(o.views[t], o.known)
    && PodsOf(m, t) == NamesOf(o.views[t].podList)
    && (t != WARM ==> TenantOf(m, t).state == o.views[t].state)
  }

  // The objects say what the value m says.
  ghost predicate Agree(o: Objects, m: Meta) {
    && m.mode == o.mode
    && WARM !in m.tenants && o.views.Keys == m.tenants.Keys + {WARM}
    && (forall t :: t in o.views ==> ViewAgrees(o, m, t))
    && o.infos.Keys == o.known.Keys && m.info == o.infos
    && m.registry == o.registry.Keys && (forall n :: n in o.registry ==> n in o.known && o.registry[n] == o.known[n])
    && m.pool.pending == o.pending && m.pool.results == o.results
  }

  ghost function Filed(o: Objects, t: string, v: View, n: string, i: PodInfo): Objects {
    o.(views := o.views[t := v], infos := o.infos[n := i])
  }

  // A container's list and a pod's info change together on both sides.
  lemma FiledAgrees(o: Objects, m: Meta, t: string, v: View, n: string, i: PodInfo)
    requires Agree(o, m) && t in o.views && Tidy(v, o.known) && v.state == o.views[t].state && n in o.known
    ensures Agree(Filed(o, t, v, n, i), WithInfo(WithPods(m, t, NamesOf(v.podList)), n, i))
  {
    ListAgrees(o, m, t, v);
    InfoAgrees(o.(views := o.views[t := v]), WithPods(m, t, NamesOf(v.podList)), n, i);
  }

  lemma MembersAgree(o: Objects, m: Meta, t: string)
    requires Agree(o, m) && t in o.views
    ensures var v := o.views[t];
            && Tidy(v, o.known) && PodsOf(m, t) == NamesOf(v.podList)
            && (forall n :: n in PodsOf(m, t) <==> n in v.podMap)
            && (forall n :: n in v.podMap ==> n in m.info) && m.info == o.infos
  {
    assert ViewAgrees(o, m, t);
    NamesInMap(o.views[t].podMap, o.views[t].podList);
  }

  lemma TakeOutNothing(m: Meta, k: string, t: string, now: int)
    requires k !in PodsOf(m, t)
    ensures TakeOut(m, k, t, now) == m
  {
  }

  lemma TakeOutAgrees(o: Objects, m: Meta, t: string, v: View, k: string, now: int)
    requires Agree(o, m) && t in o.views && k in o.views[t].podMap && k in o.infos
    requires Tidy(v, o.known) && v.state == o.views[t].state
    requires NamesOf(v.podList) == Without(NamesOf(o.views[t].podList), k)
    ensures Agree(Filed(o, t, v, k, o.infos[k].(tenant := WARM, stime := now)), TakeOut(m, k, t, now))
  {
    MembersAgree(o, m, t);
    FiledAgrees(o, m, t, v, k, Cleared(m, k, now));
    hide NamesOf, Agree;
  }

  lemma PutAgrees(o: Objects, m: Meta, t: string, v: View, k: string, i: PodInfo)
    requires Agree(o, m) && t in o.views && k in o.infos && i.tenant == t && i.ip == o.infos[k].ip
    requires Tidy(v, o.known) && v.state == o.views[t].state
    requires NamesOf(v.podList) == Append(NamesOf(o.views[t].podList), k)
    ensures Agree(Filed(o, t, v, k, i), PutAt(m, k, t, i.stime))
    ensures i.stime == o.infos[k].stime ==> Agree(Filed(o, t, v, k, i), Put(m, k, t))
  {
    MembersAgree(o, m, t);
    FiledAgrees(o, m, t, v, k, i);
    hide NamesOf, Agree;
  }

  lemma PoolAgrees(o: Objects, m: Meta, pending: int, results: map<string, OpResult>)
    requires Agree(o, m)
    ensures Agree(o.(pending := pending, results := results),
                  m.(pool := m.pool.(pending := pending, results := results)))
    ensures m.pool.pending == o.pending && m.pool.results == o.results
  {
    hide Tidy, NamesOf;
    var m2 := m.(pool := m.pool.(pending := pending, results := results));
    forall t | t in o.views ensures ViewAgrees(o.(pending := pending, results := results), m2, t) {
      assert ViewAgrees(o, m, t);
    }
  }

  lemma InfoAgrees(o: Objects, m: Meta, n: string, i: PodInfo)
    requires Agree(o, m) && n in o.known
    ensures Agree(o.(infos := o.infos[n := i]), WithInfo(m, n, i))
    ensures InfoOf(m, n) == o.infos[n]
  {
    hide Tidy, NamesOf;
    forall t | t in o.views ensures ViewAgrees(o.(infos := o.infos[n := i]), WithInfo(m, n, i), t) {
      assert ViewAgrees(o, m, t);
    }
  }

  lemma TidyGrows(v: View, known: map<string, PodDesc>, n: string, p: PodDesc)
    requires Tidy(v, known) && n !in known
    ensures Tidy(v, known[n := p])
  {
    hide Coherent;
  }

  // A pod nobody has seen before.
  lemma NewPodAgrees(o: Objects, m: Meta, n: string, p: PodDesc, i: PodInfo)
    requires Agree(o, m) && n !in o.known
    ensures Agree(o.(known := o.known[n := p], infos := o.infos[n := i], registry := o.registry[n := p]),
                  WithInfo(m.(registry := m.registry + {n}), n, i))
  {
    hide Tidy, NamesOf;
    var o2 := o.(known := o.known[n := p], infos := o.infos[n := i], registry := o.registry[n := p]);
    forall t | t in o.views ensures ViewAgrees(o2, WithInfo(m.(registry := m.registry + {n}), n, i), t) {
      assert ViewAgrees(o, m, t);
      TidyGrows(o.views[t], o.known, n, p);
    }
  }

  lemma RegistryShrinks(o: Objects, m: Meta, n: string)
    requires Agree(o, m)
    ensures Agree(o.(registry := o.registry - {n}), m.(registry := m.registry - {n}))
  {
    hide Tidy, NamesOf;
    forall t | t in o.views ensures ViewAgrees(o.(registry := o.registry - {n}), m.(registry := m.registry - {n}), t) {
      assert ViewAgrees(o, m, t);
    }
  }

  lemma NewTenantAgrees(o: Objects, m: Meta, t: string, st: TenantState)
    requires Agree(o, m) && t !in o.views
    ensures Agree(o.(views := o.views[t := View(map[], [], st)]), m.(tenants := m.tenants[t := Tenant([], st)]))
  {
    hide Tidy;
    var o2, m2 := o.(views := o.views[t := View(map[], [], st)]), m.(tenants := m.tenants[t := Tenant([], st)]);
    EmptyIsTidy(st, o.known);
    forall u | u in o2.views ensures ViewAgrees(o2, m2, u) {
      if u != t { assert ViewAgrees(o, m, u); }
    }
  }

  lemma EmptyIsTidy(st: TenantState, known: map<string, PodDesc>)
    ensures Tidy(View(map[], [], st), known) && NamesOf([]) == []
  {
  }

  lemma StateAgrees(o: Objects, m: Meta, t: string, st: TenantState)
    requires Agree(o, m) && t in o.views && t != WARM
    ensures Agree(o.(views := o.views[t := o.views[t].(state := st)]), WithState(m, t, st))
    ensures TenantOf(m, t).state == o.views[t].state
  {
    hide Coherent, NamesOf;
    var o2, m2 := o.(views := o.views[t := o.views[t].(state := st)]), WithState(m, t, st);
    forall u | u in o2.views ensures ViewAgrees(o2, m2, u) {
      assert ViewAgrees(o, m, u);
    }
    assert ViewAgrees(o, m, t);
  }

  // Correct, in the order the code does it.
  lemma CorrectInSteps(m: Meta, pod: string, t: string, startTime: int, now: int)
    ensures var owner := InfoOf(m, pod).tenant;
            var out := if owner != t && (owner == WARM || owner in m.tenants) then TakeOut(m, pod, owner, now) else m;
            var ready := if t == WARM || !HasTarget(out, t) then out else WithState(out, t, Resumed);
            Correct(m, pod, t, startTime, now) == if HasTarget(out, t) then PutAt(ready, pod, t, startTime) else out
  {
    hide Without;
  }

  // The pool after its i oldest pods have left.
  ghost function Drained(m: Meta, i: nat, now: int): Meta
    requires i <= |m.pool.pods|
  {
    ClearAll(WithPods(m, WARM, m.pool.pods[i..]), m.pool.pods[..i], now)
  }

  lemma DrainedNone(m: Meta, now: int)
    ensures Drained(m, 0, now) == m
  {
    assert m.pool.pods[0..] == m.pool.pods;
    assert Drained(m, 0, now).info == m.info;
  }

  lemma DrainedIsTakeWarmed(m: Meta, t: string, cnt: nat, now: int)
    ensures var k := MinInt(cnt, |m.pool.pods|);
            TakeWarmed(m, t, cnt, now) == WithResult(Drained(m, k, now), t, OpResult(cnt - k, now))
  {
  }

  lemma DrainedOneMore(m: Meta, i: nat, now: int)
    requires i < |m.pool.pods| && NoDup(m.pool.pods) && forall n :: n in m.pool.pods ==> n in m.info
    ensures m.pool.pods[i] in PodsOf(Drained(m, i, now), WARM)
    ensures TakeOut(Drained(m, i, now), m.pool.pods[i], WARM, now) == Drained(m, i + 1, now)
  {
    var pods := m.pool.pods;
    assert pods[i..] == [pods[i]] + pods[i + 1..];
    assert pods[..i + 1] == pods[..i] + [pods[i]];
    WithoutAbsent(pods[i + 1..], pods[i]);
    assert Without(pods[i..], pods[i]) == pods[i + 1..];
    var one, two := TakeOut(Drained(m, i, now), pods[i], WARM, now), Drained(m, i + 1, now);
    assert one.pool == two.pool;
    forall n ensures n in one.info <==> n in two.info {}
    forall n | n in one.info ensures one.info[n] == two.info[n] {}
    assert one.info == two.info;
  }

  ghost function ClearedInfos(infos: map<string, PodInfo>, names: seq<string>, now: int): (r: map<string, PodInfo>)
    ensures r.Keys == infos.Keys
  {
    map n | n in infos :: if n in names then infos[n].(tenant := WARM, stime := now) else infos[n]
  }

  lemma ListAgrees(o: Objects, m: Meta, t: string, v: View)
    requires Agree(o, m) && t in o.views && Tidy(v, o.known) && v.state == o.views[t].state
    ensures Agree(o.(views := o.views[t := v]), WithPods(m, t, NamesOf(v.podList)))
  {
    hide Tidy, NamesOf;
    forall u | u in o.views ensures ViewAgrees(o.(views := o.views[t := v]), WithPods(m, t, NamesOf(v.podList)), u) {
      assert ViewAgrees(o, m, u);
    }
  }

  lemma ClearedAgrees(o: Objects, m: Meta, names: seq<string>, now: int)
    requires Agree(o, m) && forall n :: n in names ==> n in o.known
    ensures Agree(o.(infos := ClearedInfos(o.infos, names, now)), ClearAll(m, names, now))
  {
    hide Tidy, NamesOf;
    forall u | u in o.views
      ensures ViewAgrees(o.(infos := ClearedInfos(o.infos, names, now)), ClearAll(m, names, now), u) {
      assert ViewAgrees(o, m, u);
    }
    assert ClearAll(m, names, now).info == ClearedInfos(o.infos, names, now);
  }

  lemma PrefixIsTidy(was: View, left: nat, v: View, known: map<string, PodDesc>)
    requires Tidy(was, known) && left <= |was.podList|
    requires Coherent(v.podMap, v.podList) && v.podList == was.podList[..left]
    ensures Tidy(v, known)
  {
    forall n | n in v.podMap ensures n in known && known[n] == v.podMap[n] {
      var i :| 0 <= i < |v.podList| && v.podList[i] == v.podMap[n];
      assert was.podList[i].Name == n;
    }
  }

  lemma PoppedAreKnown(o: Objects, m: Meta, t: string, cnt: nat)
    requires Agree(o, m) && t in o.views
    ensures forall n :: n in Popped(m, t, cnt) ==> n in o.known
  {
    MembersAgree(o, m, t);
    ReverseKeeps(PodsOf(m, t)[|PodsOf(m, t)| - PopCount(m, t, cnt)..]);
  }

  lemma PopAgrees(o: Objects, m: Meta, t: string, v: View, cnt: nat, now: int)
    requires Agree(o, m) && t in o.views && t != WARM && Tidy(v, o.known) && v.state == o.views[t].state
    requires NamesOf(v.podList) == PodsOf(m, t)[..|PodsOf(m, t)| - PopCount(m, t, cnt)]
    ensures Agree(o.(views := o.views[t := v], infos := ClearedInfos(o.infos, Popped(m, t, cnt), now)),
                  Pop(m, t, cnt, now))
  {
    PoppedAreKnown(o, m, t, cnt);
    hide Agree, NamesOf, Tidy, Popped, ClearedInfos, ClearAll, PodsOf, WithPods;
    ListAgrees(o, m, t, v);
    ClearedAgrees(o.(views := o.views[t := v]), WithPods(m, t, NamesOf(v.podList)), Popped(m, t, cnt), now);
  }

  lemma UnregisterShrinks(m: Meta, n: string, now: int)
    ensures Unregister(m, n, now).registry == m.registry - {n}
  {
    hide Without;
  }

  lemma OthersStaySorted(m: Meta, m2: Meta, t: string)
    requires t in m.tenants && t != WARM && m2 == WithPods(m, t, PodsOf(m2, t))
    requires |PodsOf(m2, t)| == |PodsOf(m, t)| && NoDup(PodsOf(m2, t))
    requires forall n :: n in PodsOf(m2, t) <==> n in PodsOf(m, t)
    ensures Rearranged(m, m2)
    ensures forall u :: u in m.tenants && u != t && SortedByStart(m, m.tenants[u].pods) ==>
              SortedByStart(m2, m2.tenants[u].pods)
    ensures forall m0 :: Rearranged(m0, m) ==> Rearranged(m0, m2)
  {
  }
}
