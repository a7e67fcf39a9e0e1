// AutoScaleMeta (autoscale/meta.go) as it is kept in place: tenants, registry and warm pool share pod
// objects. Each critical section is proved to do to the objects what MetaSpec does to values.
module ScaleMeta {
  import opened Numbers
  import opened NameLists
  import opened MetaSpec
  import opened Containers
  import opened MetaObjects
  import opened Protocol
  import opened WarmRounds

  // PrewarmPool is embedded in AutoScaleMeta, so its fields are fields of this class.
  class AutoScaleMeta {
    const mode: RunMode
    const WarmedPods: TenantDesc
    const SoftLimit: nat
    var tenantMap: map<string, TenantDesc>
    var PodDescMap: map<string, PodDesc>
    var cntOfPending: int
    var tenantLastOpResultMap: map<string, OpResult>
    var IsRuntimeReady: bool

    ghost var known: map<string, PodDesc>   // every pod ever registered, by name
    ghost var M: Meta                       // the bookkeeping as a value

    ghost function Views(): map<string, View>
      reads this`tenantMap, WarmedPods, tenantMap.Values
    {
      map t | t in tenantMap.Keys + {WARM} :: ViewOf(if t in tenantMap then tenantMap[t] else WarmedPods)
    }

    static ghost function ViewOf(c: TenantDesc): View
      reads c
    {
      View(c.podMap, c.podList, c.State)
    }

    ghost function Infos(): map<string, PodInfo>
      reads this`known, known.Values
    {
      map n | n in known :: known[n].Info()
    }

    // Everything the objects say, as one value; it depends on no ghost but known.
    ghost function Says(): Objects
      reads this`tenantMap, this`known, this`PodDescMap, this`cntOfPending, this`tenantLastOpResultMap
      reads WarmedPods, tenantMap.Values, known.Values
    {
      Objects(mode, Views(), known, Infos(), PodDescMap, cntOfPending, tenantLastOpResultMap)
    }

    // The pods are known objects, each under its own name.
    ghost predicate AllKnown(pods: seq<PodDesc>)
      reads this`known
    {
      forall i :: 0 <= i < |pods| ==> pods[i].Name in known && known[pods[i].Name] == pods[i]
    }

    lemma NoneKnown()
      ensures AllKnown([])
    {
    }

    lemma KnownGrow(pods: seq<PodDesc>, v: PodDesc)
      requires AllKnown(pods) && v.Name in known && known[v.Name] == v
      ensures AllKnown(pods + [v])
    {
    }

    lemma KnownShrink(pods: seq<PodDesc>, i: nat)
      requires AllKnown(pods) && i < |pods|
      ensures AllKnown(pods[..i] + pods[i + 1..]) && pods[i].Name in known && known[pods[i].Name] == pods[i]
    {
    }

    // An object goes by the name it is filed under.
    ghost predicate Named()
      reads this`known, this`tenantMap
    {
      && WarmedPods.Name == WARM && WARM !in tenantMap
      && (forall t :: t in tenantMap ==> tenantMap[t].Name == t)
      && (forall n :: n in known ==> known[n].Name == n)
    }

    ghost predicate Valid()
      reads this, WarmedPods, tenantMap.Values, known.Values
    {
      Named() && Agree(Says(), M)
    }

    constructor (mode: RunMode, softLimit: nat)
      ensures SoftLimit == softLimit
      ensures Valid() && M == Meta(mode, map[], Pool([], 0, map[]), {}, map[])
    {
      this.mode := mode;
      SoftLimit := softLimit;
      WarmedPods := new TenantDesc(WARM, Resumed);
      tenantMap, PodDescMap, cntOfPending, tenantLastOpResultMap := map[], map[], 0, map[];
      IsRuntimeReady := false;
      known, M := map[], Meta(mode, map[], Pool([], 0, map[]), {}, map[]);
    }

    // The pool or a tenant of this controller.
    ghost predicate Container(c: TenantDesc)
      reads this`tenantMap
    {
      c == WarmedPods || (c.Name in tenantMap && tenantMap[c.Name] == c)
    }

    lemma ViewsAre(views: map<string, View>)
      requires Named() && views.Keys == tenantMap.Keys + {WARM} && ViewOf(WarmedPods) == views[WARM]
      requires forall t :: t in tenantMap ==> ViewOf(tenantMap[t]) == views[t]
      ensures Views() == views
    {
    }

    lemma InfosAre(infos: map<string, PodInfo>)
      requires infos.Keys == known.Keys && forall n :: n in known ==> known[n].Info() == infos[n]
      ensures Infos() == infos
    {
    }

    lemma FiledUnder(c: TenantDesc)
      requires Named() && Container(c)
      ensures c.Name in Says().views && Says().views[c.Name] == ViewOf(c)
    {
    }

    // ---------------------------------------------------------------------------------------------
    // Container calls. Each comes in two steps: what it does to the objects of this controller, and then
    // the same with M kept in line.

    method DropPod(c: TenantDesc, k: string, now: int) returns (r: PodDesc)
      requires Named() && Container(c) && Tidy(ViewOf(c), known) && k in c.podMap
      modifies c`podMap, c`podList, known.Values
      ensures Tidy(ViewOf(c), known) && c.Names() == Without(old(c.Names()), k) && r == known[k]
      ensures unchanged(this) && Named()
      ensures Says() == Filed(old(Says()), c.Name, ViewOf(c), k, old(Says()).infos[k].(tenant := WARM, stime := now))
    {
      hide Coherent;
      ghost var infos, views := Infos(), Views();
      r := c.RemovePod(k, now);
      infos := infos[k := infos[k].(tenant := WARM, stime := now)];
      forall n | n in known ensures known[n].Info() == infos[n] {}
      InfosAre(infos);
      views := views[c.Name := ViewOf(c)];
      forall t | t in tenantMap ensures ViewOf(tenantMap[t]) == views[t] {}
      ViewsAre(views);
    }

    method RemovePodFrom(c: TenantDesc, k: string, now: int) returns (r: PodDesc?)
      requires Valid() && Container(c)
      modifies this`M, c`podMap, c`podList, known.Values
      ensures Valid() && M == TakeOut(old(M), k, c.Name, now)
      ensures if k in PodsOf(old(M), c.Name) then k in known && r == known[k] else r == null
    {
      hide Agree, Tidy, NamesOf, Coherent, TakeOut, Filed, Named;
      ghost var o := Says();
      FiledUnder(c);
      MembersAgree(o, M, c.Name);
      if k in c.podMap {
        M := TakeOut(M, k, c.Name, now);
        assert Says() == o;
        r := DropPod(c, k, now);
        TakeOutAgrees(o, old(M), c.Name, ViewOf(c), k, now);
      } else {
        TakeOutNothing(M, k, c.Name, now);
        r := null;
      }
    }

    method AddPod(c: TenantDesc, v: PodDesc)
      requires Named() && Container(c) && Tidy(ViewOf(c), known) && v.Name in known && known[v.Name] == v
      modifies c`podMap, c`podList, known.Values
      ensures Tidy(ViewOf(c), known) && c.Names() == Append(old(c.Names()), v.Name)
      ensures unchanged(this) && Named()
      ensures Says() == Filed(old(Says()), c.Name, ViewOf(c), v.Name, old(Says()).infos[v.Name].(tenant := c.Name))
    {
      hide Coherent;
      ghost var infos, views := Infos(), Views();
      c.SetPod(v.Name, v);
      infos := infos[v.Name := infos[v.Name].(tenant := c.Name)];
      forall n | n in known ensures known[n].Info() == infos[n] {}
      InfosAre(infos);
      views := views[c.Name := ViewOf(c)];
      forall t | t in tenantMap ensures ViewOf(tenantMap[t]) == views[t] {}
      ViewsAre(views);
    }

    method AddPodAt(c: TenantDesc, v: PodDesc, startTime: int)
      requires Named() && Container(c) && Tidy(ViewOf(c), known) && v.Name in known && known[v.Name] == v
      modifies c`podMap, c`podList, known.Values
      ensures Tidy(ViewOf(c), known) && c.Names() == Append(old(c.Names()), v.Name)
      ensures unchanged(this) && Named()
      ensures Says() == Filed(old(Says()), c.Name, ViewOf(c), v.Name,
                              old(Says()).infos[v.Name].(tenant := c.Name, stime := startTime))
    {
      hide Coherent;
      ghost var infos, views := Infos(), Views();
      c.SetPodWithTenantInfo(v.Name, v, startTime);
      infos := infos[v.Name := infos[v.Name].(tenant := c.Name, stime := startTime)];
      forall n | n in known ensures known[n].Info() == infos[n] {}
      InfosAre(infos);
      views := views[c.Name := ViewOf(c)];
      forall t | t in tenantMap ensures ViewOf(tenantMap[t]) == views[t] {}
      ViewsAre(views);
    }

    method SetPodIn(c: TenantDesc, v: PodDesc)
      requires Valid() && Container(c) && v.Name in known && known[v.Name] == v
      modifies this`M, c`podMap, c`podList, known.Values
      ensures Valid() && M == Put(old(M), v.Name, c.Name)
    {
      hide Agree, Tidy, NamesOf, Coherent, Put, PutAt, Filed, Named;
      ghost var o := Says();
      FiledUnder(c);
      MembersAgree(o, M, c.Name);
      M := Put(M, v.Name, c.Name);
      assert Says() == o;
      AddPod(c, v);
      PutAgrees(o, old(M), c.Name, ViewOf(c), v.Name, o.infos[v.Name].(tenant := c.Name));
    }

    method SetPodInAt(c: TenantDesc, v: PodDesc, startTime: int)
      requires Valid() && Container(c) && v.Name in known && known[v.Name] == v
      modifies this`M, c`podMap, c`podList, known.Values
      ensures Valid() && M == PutAt(old(M), v.Name, c.Name, startTime)
    {
      hide Agree, Tidy, NamesOf, Coherent, Put, PutAt, Filed, Named;
      ghost var o := Says();
      FiledUnder(c);
      MembersAgree(o, M, c.Name);
      M := PutAt(M, v.Name, c.Name, startTime);
      assert Says() == o;
      AddPodAt(c, v, startTime);
      PutAgrees(o, old(M), c.Name, ViewOf(c), v.Name, o.infos[v.Name].(tenant := c.Name, stime := startTime));
    }

    // ---------------------------------------------------------------------------------------------
    // The warm pool

    method SetPending(pending: int)
      requires Valid()
      modifies this`M, this`cntOfPending
      ensures Valid() && M == WithPending(old(M), pending) && cntOfPending == pending
    {
      hide Agree;
      ghost var o := Says();
      PoolAgrees(o, M, pending, tenantLastOpResultMap);
      cntOfPending := pending;
      M := WithPending(M, pending);
      assert Says() == o.(pending := pending);
    }

    method SetResult(t: string, r: OpResult)
      requires Valid() && t != WARM
      modifies this`M, this`tenantLastOpResultMap
      ensures Valid() && M == WithResult(old(M), t, r)
    {
      hide Agree;
      ghost var o := Says();
      PoolAgrees(o, M, cntOfPending, tenantLastOpResultMap[t := r]);
      tenantLastOpResultMap := tenantLastOpResultMap[t := r];
      M := WithResult(M, t, r);
      assert Says() == o.(results := o.results[t := r]);
    }

    method PutWarmedPod(from: string, v: PodDesc, isNewPod: bool, now: int)
      requires Valid() && v.Name in known && known[v.Name] == v
      modifies this`M, this`cntOfPending, this`tenantLastOpResultMap
      modifies WarmedPods`podMap, WarmedPods`podList, known.Values
      ensures Valid() && M == PutWarmed(old(M), from, v.Name, isNewPod, now)
    {
      hide Valid, Put;
      Mirrors();
      if isNewPod && cntOfPending > 0 {
        SetPending(cntOfPending - 1);
      }
      SetPodIn(WarmedPods, v);
      if from != WARM {
        SetResult(from, OpResult(0, now));
      }
    }

    // What M says about the fields, for methods that hide Valid.
    lemma Mirrors()
      requires Valid()
      ensures M.pool.pending == cntOfPending && M.pool.results == tenantLastOpResultMap && M.mode == mode
      ensures M.tenants.Keys == tenantMap.Keys && M.registry == PodDescMap.Keys
      ensures M.info.Keys == known.Keys
      ensures forall n :: n in known ==> known[n].Name == n && M.info[n] == known[n].Info()
      ensures WarmedPods.Name == WARM && WARM !in tenantMap && forall t :: t in tenantMap ==> tenantMap[t].Name == t
      ensures forall n :: n in PodDescMap ==> n in known && PodDescMap[n] == known[n]
    {
    }

    // ---------------------------------------------------------------------------------------------
    // Pods and the registry

    method ClearPod(v: PodDesc, now: int)
      requires Valid() && v.Name in known && known[v.Name] == v
      modifies this`M, known.Values
      ensures Valid() && M == WithInfo(old(M), v.Name, Cleared(old(M), v.Name, now))
    {
      hide Agree;
      ghost var o := Says();
      InfoAgrees(o, M, v.Name, o.infos[v.Name].(tenant := WARM, stime := now));
      M := WithInfo(M, v.Name, Cleared(M, v.Name, now));
      v.ClearTenantInfo(now);
      ghost var infos := o.infos[v.Name := o.infos[v.Name].(tenant := WARM, stime := now)];
      forall n | n in known ensures known[n].Info() == infos[n] {}
      InfosAre(infos);
      forall t | t in tenantMap ensures ViewOf(tenantMap[t]) == o.views[t] {}
      ViewsAre(o.views);
    }

    method SetIP(v: PodDesc, ip: string)
      requires Valid() && v.Name in known && known[v.Name] == v
      modifies this`M, known.Values
      ensures Valid() && M == WithInfo(old(M), v.Name, InfoOf(old(M), v.Name).(ip := ip))
    {
      hide Agree;
      ghost var o := Says();
      InfoAgrees(o, M, v.Name, o.infos[v.Name].(ip := ip));
      M := WithInfo(M, v.Name, InfoOf(M, v.Name).(ip := ip));
      v.IP := ip;
      ghost var infos := o.infos[v.Name := o.infos[v.Name].(ip := ip)];
      forall n | n in known ensures known[n].Info() == infos[n] {}
      InfosAre(infos);
      forall t | t in tenantMap ensures ViewOf(tenantMap[t]) == o.views[t] {}
      ViewsAre(o.views);
    }

    method Register(name: string, ip: string) returns (v: PodDesc)
      requires Valid() && name !in known
      modifies this`M, this`known, this`PodDescMap
      ensures Valid() && M == WithInfo(old(M).(registry := old(M).registry + {name}), name, PodInfo(ip, WARM, 0))
      ensures fresh(v) && v.Name == name && known == old(known)[name := v] && PodDescMap == old(PodDescMap)[name := v]
    {
      hide Agree, WithInfo, ViewOf;
      ghost var o := Says();
      v := new PodDesc(name, ip);
      NewPodAgrees(o, M, name, v, PodInfo(ip, WARM, 0));
      M := WithInfo(M.(registry := M.registry + {name}), name, PodInfo(ip, WARM, 0));
      known, PodDescMap := known[name := v], PodDescMap[name := v];
      ghost var infos := o.infos[name := PodInfo(ip, WARM, 0)];
      assert Named();
      assert Infos() == infos by {
        hide Named;
        forall n | n in known ensures known[n].Info() == infos[n] {}
        InfosAre(infos);
      }
      assert Views() == o.views by {
        hide Named;
        forall t | t in tenantMap ensures ViewOf(tenantMap[t]) == o.views[t] {}
        ViewsAre(o.views);
      }
    }

    // UpdatePod: a Kubernetes event, or one pod of a listing.
    method UpdatePod(name: string, ip: string, now: int)
      requires Valid() && (name in PodDescMap || name !in known)
      modifies this`M, this`known, this`PodDescMap, this`cntOfPending, this`tenantLastOpResultMap
      modifies WarmedPods`podMap, WarmedPods`podList, known.Values
      ensures Valid() && M == MetaSpec.UpdatePod(old(M), name, ip, now)
      ensures forall n :: n in old(known) ==> n in known && known[n] == old(known)[n]
      ensures fresh(known.Values - old(known.Values))
      ensures known.Keys == old(known.Keys) + {name} && PodDescMap.Keys == old(PodDescMap.Keys) + {name}
    {
      hide Valid, PutWarmed;
      Mirrors();
      if name !in PodDescMap {
        var podDesc := Register(name, ip);
        if ip != "" {
          PutWarmedPod(WARM, podDesc, true, now);
        }
      } else {
        var podDesc := PodDescMap[name];
        if podDesc.IP == "" {
          if ip != "" {
            SetIP(podDesc, ip);
            PutWarmedPod(WARM, podDesc, true, now);
          }
        } else if ip != "" && podDesc.IP != ip {
          SetIP(podDesc, ip);
        }
      }
    }

    method GetTenantDescOrWarmedPool(tenant: string) returns (c: TenantDesc?)
      requires Valid()
      ensures if tenant == WARM || tenant in M.tenants then c != null && Container(c) && c.Name == tenant else c == null
    {
      Mirrors();
      if tenant == WARM {
        c := WarmedPods;
      } else if tenant in tenantMap {
        c := tenantMap[tenant];
      } else {
        c := null;
      }
    }

    method RemovePodFromClusterWithoutLock(v: PodDesc, now: int)
      requires Valid() && v.Name in PodDescMap && PodDescMap[v.Name] == v
      modifies this`M, this`PodDescMap, WarmedPods, tenantMap.Values, known.Values
      ensures Valid() && M == Unregister(old(M), v.Name, now)
    {
      hide Valid, Without;
      Mirrors();
      var oldTenantDesc := GetTenantDescOrWarmedPool(v.tenantName);
      if oldTenantDesc != null {
        var _ := RemovePodFrom(oldTenantDesc, v.Name, now);
      }
      ClearPod(v, now);
      Unlist(v.Name);
    }

    method Unlist(name: string)
      requires Valid()
      modifies this`M, this`PodDescMap
      ensures Valid() && M == old(M).(registry := old(M).registry - {name})
    {
      hide Agree;
      ghost var o := Says();
      RegistryShrinks(o, M, name);
      M := M.(registry := M.registry - {name});
      PodDescMap := PodDescMap - {name};
      assert Says() == o.(registry := o.registry - {name});
    }

    method HandleK8sDelPodEvent(name: string, now: int) returns (unknown: bool)
      requires Valid()
      modifies this`M, this`PodDescMap, WarmedPods, tenantMap.Values, known.Values
      ensures Valid() && unknown == (name !in old(M).registry)
      ensures M == if unknown then old(M) else Unregister(old(M), name, now)
      ensures M.registry == old(M).registry - {name}
    {
      hide Valid, Unregister;
      Mirrors();
      if name !in PodDescMap {
        return true;
      }
      RemovePodFromClusterWithoutLock(PodDescMap[name], now);
      UnregisterShrinks(old(M), name, now);
      return false;
    }

    // SetupTenantWithConfig and its relatives: a tenant that is already there is left alone.
    method SetupTenant(tenant: string, state: TenantState) returns (created: bool)
      requires Valid() && tenant != WARM
      modifies this`M, this`tenantMap
      ensures Valid() && M == Setup(old(M), tenant, state) && created == (tenant !in old(M).tenants)
      ensures forall t :: t in old(tenantMap) ==> t in tenantMap && tenantMap[t] == old(tenantMap)[t]
      ensures fresh(tenantMap.Values - old(tenantMap.Values))
    {
      hide Agree, Tidy, NamesOf, Coherent;
      Mirrors();
      if tenant in tenantMap {
        return false;
      }
      ghost var o := Says();
      NewTenantAgrees(o, M, tenant, state);
      var c := new TenantDesc(tenant, state);
      tenantMap := tenantMap[tenant := c];
      M := Setup(M, tenant, state);
      ghost var views := o.views[tenant := View(map[], [], state)];
      assert Views() == views by {
        forall t | t in tenantMap ensures ViewOf(tenantMap[t]) == views[t] {}
        ViewsAre(views);
      }
      assert Infos() == o.infos by {
        forall n | n in known ensures known[n].Info() == o.infos[n] {}
        InfosAre(o.infos);
      }
      assert Says() == o.(views := views);
      return true;
    }

    method SetState(c: TenantDesc, state: TenantState)
      requires Valid() && Container(c) && c.Name != WARM
      modifies this`M, c`State
      ensures Valid() && M == WithState(old(M), c.Name, state)
    {
      hide Agree;
      Mirrors();
      ghost var o := Says();
      StateAgrees(o, M, c.Name, state);
      M := WithState(M, c.Name, state);
      c.State := state;
      ghost var views := o.views[c.Name := o.views[c.Name].(state := state)];
      forall t | t in tenantMap ensures ViewOf(tenantMap[t]) == views[t] {}
      ViewsAre(views);
      forall n | n in known ensures known[n].Info() == o.infos[n] {}
      InfosAre(o.infos);
    }

    // The container a correction files the pod in, if there is one.
    method CorrectedTenantDesc(tenant: string) returns (c: TenantDesc?)
      requires Valid()
      modifies this`M, this`tenantMap, tenantMap.Values
      ensures Valid() && known == old(known)
      ensures M == if tenant == WARM || !HasTarget(old(M), tenant) then old(M) else WithState(old(M), tenant, Resumed)
      ensures if HasTarget(old(M), tenant) then c != null && Container(c) && c.Name == tenant else c == null
      ensures forall t :: t in old(tenantMap) ==> t in tenantMap && tenantMap[t] == old(tenantMap)[t]
      ensures fresh(tenantMap.Values - old(tenantMap.Values))
    {
      hide Valid;
      Mirrors();
      if tenant == WARM {
        return WarmedPods;
      }
      if tenant !in tenantMap {
        if mode == LocalMode || mode == ServerlessMode {
          var _ := SetupTenant(tenant, Resumed);
          Mirrors();
          return tenantMap[tenant];
        }
        return null;
      }
      c := tenantMap[tenant];
      if (mode == LocalMode || mode == ServerlessMode) && !IsRuntimeReady {
        SetState(c, Resumed);
      } else {
        StatesAgree(tenant);
        if c.State != Resumed {
          SetState(c, Resumed);
        }
      }
    }

    lemma StatesAgree(t: string)
      requires Valid() && t in tenantMap
      ensures TenantOf(M, t) == Tenant(tenantMap[t].Names(), tenantMap[t].State)
      ensures TenantOf(M, t).state == Resumed ==> WithState(M, t, Resumed) == M
    {
      assert ViewAgrees(Says(), M, t);
    }

    // The first half of a correction: the pod leaves the container its back-pointer names.
    method LeaveOldTenant(podDesc: PodDesc, tenant: string, now: int)
      requires Valid() && podDesc.Name in known && known[podDesc.Name] == podDesc
      modifies this`M, WarmedPods`podMap, WarmedPods`podList, tenantMap.Values, known.Values
      ensures Valid()
      ensures var owner := InfoOf(old(M), podDesc.Name).tenant;
              M == if owner != tenant && (owner == WARM || owner in old(M).tenants)
                   then TakeOut(old(M), podDesc.Name, owner, now)
                   else old(M)
    {
      hide Valid, TakeOut;
      Mirrors();
      var oldTenant := podDesc.tenantName;
      if oldTenant != tenant {
        var oldTenantDesc := GetTenantDescOrWarmedPool(oldTenant);
        if oldTenantDesc != null {
          var _ := RemovePodFrom(oldTenantDesc, podDesc.Name, now);
        }
      }
    }

    method UpdateLocalMetaPodOfTenant(podDesc: PodDesc, tenant: string, startTime: int, now: int)
      requires Valid() && podDesc.Name in known && known[podDesc.Name] == podDesc
      modifies this`M, this`tenantMap, WarmedPods, tenantMap.Values, known.Values
      ensures Valid() && M == Correct(old(M), podDesc.Name, tenant, startTime, now)
      ensures forall t :: t in old(tenantMap) ==> t in tenantMap && tenantMap[t] == old(tenantMap)[t]
      ensures fresh(tenantMap.Values - old(tenantMap.Values))
    {
      hide Valid, TakeOut, PutAt, Correct, WithState, HasTarget;
      Mirrors();
      CorrectInSteps(M, podDesc.Name, tenant, startTime, now);
      LeaveOldTenant(podDesc, tenant, now);
      var newTenantDesc := CorrectedTenantDesc(tenant);
      if newTenantDesc != null {
        SetPodInAt(newTenantDesc, podDesc, startTime);
      }
    }

    lemma PoolMembers()
      requires Valid()
      ensures M.pool.pods == WarmedPods.Names() && NoDup(M.pool.pods) && forall n :: n in M.pool.pods ==> n in M.info
      ensures WarmedPods.Valid()
    {
      FiledUnder(WarmedPods);
      MembersAgree(Says(), M, WARM);
      NamesInMap(WarmedPods.podMap, WarmedPods.podList);
    }

    // ---------------------------------------------------------------------------------------------
    // Taking pods

    // The oldest cnt pods leave the pool; the shortfall is recorded against the tenant and returned.
    method GetWarmedPods(tenant: string, cnt: nat, now: int) returns (podsToAssign: seq<PodDesc>, failCnt: nat)
      requires Valid()
      modifies this`M, this`tenantLastOpResultMap, WarmedPods`podMap, WarmedPods`podList, known.Values
      ensures Valid() && M == TakeWarmed(old(M), tenant, cnt, now)
      ensures NamesOf(podsToAssign) == Warmed(old(M), cnt) && failCnt == cnt - |podsToAssign|
      ensures AllKnown(podsToAssign)
    {
      hide Valid, Drained, TakeOut, NamesOf, TakeWarmed, AllKnown;
      Mirrors();
      PoolMembers();
      DrainedNone(M, now);
      ghost var m := M;
      var podnames := WarmedPods.GetPodNames();
      podsToAssign, failCnt := [], cnt;
      NoneKnown();
      var i := 0;
      while i < |podnames| && failCnt > 0
        invariant Valid() && 0 <= i <= |podnames| && failCnt == cnt - i
        invariant M == Drained(m, i, now)
        invariant NamesOf(podsToAssign) == podnames[..i]
        invariant AllKnown(podsToAssign)
      {
        DrainedOneMore(m, i, now);
        var v := RemovePodFrom(WarmedPods, podnames[i], now);
        NamesGrow(podsToAssign, v);
        KnownGrow(podsToAssign, v);
        assert podnames[..i + 1] == podnames[..i] + [podnames[i]];
        podsToAssign := podsToAssign + [v];
        failCnt := failCnt - 1;
        i := i + 1;
      }
      DrainedIsTakeWarmed(m, tenant, cnt, now);
      if tenant != WARM {
        SetResult(tenant, OpResult(failCnt, now));
      }
    }

    method DropNewest(c: TenantDesc, cnt: nat, now: int) returns (rest: int, pods: seq<PodDesc>)
      requires Named() && Container(c) && Tidy(ViewOf(c), known)
      modifies c`podMap, c`podList, known.Values
      ensures unchanged(this) && Named() && Tidy(ViewOf(c), known)
      ensures var k, names := MinInt(cnt, |old(c.Names())|), old(c.Names());
              && rest == cnt - k && c.Names() == names[..|names| - k]
              && NamesOf(pods) == Reverse(names[|names| - k..])
      ensures Says() == old(Says()).(views := old(Says()).views[c.Name := ViewOf(c)],
                                     infos := ClearedInfos(old(Says()).infos, NamesOf(pods), now))
      ensures AllKnown(pods)
    {
      hide Coherent, NewestFirst, ClearedFrom, NamesOf, ClearedInfos, Recorded, AllKnown;
      ghost var was, before, views, infos := ViewOf(c), InfosOf(c.podList), Views(), Infos();
      KnownInfos(was);
      rest, pods := c.PopPods(cnt, [], now);
      ghost var left := |c.podList|;
      assert Infos() == ClearedInfos(infos, NamesOf(pods), now) by {
        OthersElsewhere(known, was, before, infos);
        assert forall n :: n in known && n !in was.podMap ==> known[n].Info() == infos[n];
        PoppedInfos(was, before, left, pods, infos, now);
        InfosAre(ClearedInfos(infos, NamesOf(pods), now));
      }
      assert Views() == views[c.Name := ViewOf(c)] by {
        forall t | t in tenantMap ensures ViewOf(tenantMap[t]) == views[c.Name := ViewOf(c)][t] {}
        ViewsAre(views[c.Name := ViewOf(c)]);
      }
      PrefixIsTidy(was, left, ViewOf(c), known);
      NewestNames(was.podList, left, pods);
      PoppedAreKnown(was, left, pods);
    }

    lemma PoppedAreKnown(was: View, left: nat, pods: seq<PodDesc>)
      requires Tidy(was, known) && left <= |was.podList| && NewestFirst(was.podList, |was.podList| - left, [], pods)
      ensures AllKnown(pods)
    {
      hide Coherent, NewestFirst;
      PoppedNames(was.podMap, was.podList, left, pods);
    }

    // What the listed pods recorded, and that a known pod outside the container is not listed.
    static ghost predicate Recorded(known: map<string, PodDesc>, was: View, before: seq<PodInfo>,
                                    infos: map<string, PodInfo>) {
      && |before| == |was.podList| && infos.Keys == known.Keys
      && (forall i :: 0 <= i < |before| ==> was.podList[i].Name in known && infos[was.podList[i].Name] == before[i])
      && (forall n :: n in known && n !in was.podMap ==> known[n] !in was.podList)
    }

    lemma OthersElsewhere(known: map<string, PodDesc>, was: View, before: seq<PodInfo>, infos: map<string, PodInfo>)
      requires Recorded(known, was, before, infos)
      ensures forall n :: n in known && n !in was.podMap ==> known[n] !in was.podList
    {
    }

    lemma KnownInfos(was: View)
      requires Named() && Tidy(was, known)
      ensures Recorded(known, was, InfosOf(was.podList), Infos())
      ensures forall i :: 0 <= i < |was.podList| ==> was.podList[i] in known.Values
    {
    }

    lemma PoppedInfos(was: View, before: seq<PodInfo>, left: nat, pods: seq<PodDesc>, infos: map<string, PodInfo>,
                      now: int)
      requires Named() && Tidy(was, known) && Recorded(known, was, before, infos)
      requires left <= |before| && NewestFirst(was.podList, |before| - left, [], pods)
      requires ClearedFrom(was.podList, before, left, now)
      requires forall n :: n in known && n !in was.podMap ==> known[n].Info() == infos[n]
      ensures forall n :: n in known ==> known[n].Info() == ClearedInfos(infos, NamesOf(pods), now)[n]
    {
      PoppedNames(was.podMap, was.podList, left, pods);
      forall n | n in was.podMap ensures known[n].Info() == ClearedInfos(infos, NamesOf(pods), now)[n] {
        var i :| 0 <= i < |before| && was.podList[i] == was.podMap[n];
      }
    }

    method PopPodsOf(c: TenantDesc, cnt: nat, now: int) returns (rest: int, pods: seq<PodDesc>)
      requires Valid() && Container(c) && c.Name != WARM
      modifies this`M, c`podMap, c`podList, known.Values
      ensures Valid() && M == Pop(old(M), c.Name, cnt, now)
      ensures NamesOf(pods) == Popped(old(M), c.Name, cnt) && rest == cnt - |pods|
      ensures AllKnown(pods)
    {
      hide Agree, Tidy, NamesOf, Coherent, Pop, Named, ClearedInfos;
      ghost var o := Says();
      FiledUnder(c);
      MembersAgree(o, M, c.Name);
      M := Pop(M, c.Name, cnt, now);
      assert Says() == o;
      rest, pods := DropNewest(c, cnt, now);
      PopAgrees(o, old(M), c.Name, ViewOf(c), cnt, now);
    }

    // ---------------------------------------------------------------------------------------------
    // The critical sections of pauses, resumes, additions and removals

    method GetTenantDesc(tenant: string) returns (c: TenantDesc?)
      requires Valid() && tenant != WARM
      ensures if tenant in M.tenants then c != null && Container(c) && c.Name == tenant else c == null
      ensures c != null ==> TenantOf(M, tenant) == Tenant(c.Names(), c.State) && c.Valid()
    {
      Mirrors();
      if tenant in tenantMap {
        c := tenantMap[tenant];
        StatesAgree(tenant);
        FiledUnder(c);
        MembersAgree(Says(), M, tenant);
      } else {
        c := null;
      }
    }

    method SwitchState(c: TenantDesc, from: TenantState, to: TenantState) returns (swapped: bool)
      requires Valid() && Container(c) && c.Name != WARM
      modifies this`M, c`State
      ensures Valid() && M == Swap(old(M), c.Name, from, to) && swapped == (TenantOf(old(M), c.Name).state == from)
    {
      hide Valid;
      Mirrors();
      StatesAgree(c.Name);
      swapped := c.State == from;
      if swapped {
        SetState(c, to);
      }
    }

    method AsyncPause(tenant: string) returns (launched: bool)
      requires Valid() && tenant != WARM
      modifies this`M, tenantMap.Values
      ensures Valid() && launched == (tenant in old(M).tenants && TenantOf(old(M), tenant).state == Resumed)
      ensures M == if launched then WithState(old(M), tenant, Pausing) else old(M)
    {
      hide Valid;
      Mirrors();
      var v := GetTenantDesc(tenant);
      if v == null {
        return false;
      }
      launched := SwitchState(v, Resumed, Pausing);
    }

    method AsyncResume(tenant: string) returns (launched: bool)
      requires Valid() && tenant != WARM
      modifies this`M, tenantMap.Values
      ensures Valid() && launched == (tenant in old(M).tenants && TenantOf(old(M), tenant).state == Paused)
      ensures M == if launched then WithState(old(M), tenant, Resuming) else old(M)
    {
      hide Valid;
      Mirrors();
      var v := GetTenantDesc(tenant);
      if v == null {
        return false;
      }
      launched := SwitchState(v, Paused, Resuming);
    }

    // The first critical section of addPodIntoTenant; when it does not go ahead the caller returns -1.
    method BeginAdd(tenant: string, addCnt: nat, isResume: bool, now: int)
      returns (proceeds: bool, podsToAssign: seq<PodDesc>, failCnt: nat)
      requires Valid() && tenant != WARM
      modifies this`M, this`tenantLastOpResultMap, WarmedPods`podMap, WarmedPods`podList, known.Values
      ensures Valid()
      ensures proceeds == (tenant in old(M).tenants &&
                           TenantOf(old(M), tenant).state == if isResume then Resuming else Resumed)
      ensures M == if proceeds then TakeWarmed(old(M), tenant, addCnt, now) else old(M)
      ensures proceeds ==> NamesOf(podsToAssign) == Warmed(old(M), addCnt) && failCnt == addCnt - |podsToAssign|
      ensures AllKnown(podsToAssign)
    {
      hide Valid, TakeWarmed, Warmed;
      podsToAssign, failCnt := [], 0;
      var tenantDesc := GetTenantDesc(tenant);
      if tenantDesc == null || tenantDesc.State != (if isResume then Resuming else Resumed) {
        return false, [], 0;
      }
      podsToAssign, failCnt := GetWarmedPods(tenant, addCnt, now);
      proceeds := true;
    }

    // One round of the undo loops: a pod Kubernetes deleted in the meantime is dropped.
    method UndoPod(tenantDesc: TenantDesc, v: PodDesc, now: int, ghost o: Op, adding: bool)
      requires Valid() && Container(tenantDesc) && tenantDesc.Name == o.tenant && adding == o.kind.Adding?
      requires v.Name in known && known[v.Name] == v
      modifies this`M, this`cntOfPending, this`tenantLastOpResultMap
      modifies WarmedPods`podMap, WarmedPods`podList, tenantDesc`podMap, tenantDesc`podList, known.Values
      ensures Valid() && M == UndoOne(old(M), o, v.Name, now)
    {
      hide Valid, PutWarmed, Put;
      Mirrors();
      if v.Name in PodDescMap {
        if adding {
          PutWarmedPod(tenantDesc.Name, v, false, now);
        } else {
          SetPodIn(tenantDesc, v);
        }
      }
    }

    // The undo loops of addPodIntoTenant and removePodFromTenant.
    method UndoPods(tenantDesc: TenantDesc, undoList: seq<PodDesc>, now: int, ghost o: Op, adding: bool)
      returns (undone: nat)
      requires Valid() && Container(tenantDesc) && tenantDesc.Name == o.tenant && adding == o.kind.Adding?
      requires AllKnown(undoList)
      requires o.undo == NamesOf(undoList)
      modifies this`M, this`cntOfPending, this`tenantLastOpResultMap
      modifies WarmedPods`podMap, WarmedPods`podList, tenantDesc`podMap, tenantDesc`podList, known.Values
      ensures Valid() && M == UndoAll(old(M), o, o.undo, now) && undone == |undoList|
    {
      hide Valid, UndoOne, NamesOf;
      undone := 0;
      for i := 0 to |undoList|
        invariant Valid() && undone == i && M == UndoAll(old(M), o, o.undo[..i], now)
      {
        assert o.undo[..i + 1][..i] == o.undo[..i];
        UndoPod(tenantDesc, undoList[i], now, o, adding);
        undone := undone + 1;
      }
      assert o.undo[..|undoList|] == o.undo;
    }

    // The last critical section of addPodIntoTenant: undo, and leave Resuming. The result counts the pods
    // wanted and not moved.
    method EndAdd(tenantDesc: TenantDesc, undoList: seq<PodDesc>, failCnt: nat, isResume: bool, now: int, ghost o: Op)
      returns (retv: nat)
      requires Valid() && Container(tenantDesc) && tenantDesc.Name == o.tenant && o.tenant != WARM
      requires AllKnown(undoList)
      requires o.kind == Adding && o.undo == NamesOf(undoList) && failCnt == o.want - |o.taken|
      modifies this`M, this`cntOfPending, this`tenantLastOpResultMap
      modifies WarmedPods`podMap, WarmedPods`podList, tenantDesc, known.Values
      ensures Valid() && retv == o.want - |o.taken| + |o.undo|
      ensures var m := UndoAll(old(M), o, o.undo, now);
              M == if isResume then Swap(m, o.tenant, Resuming, Resumed) else m
    {
      hide Valid, UndoAll, Swap, NamesOf;
      var undone := UndoPods(tenantDesc, undoList, now, o, true);
      if isResume {
        var _ := SwitchState(tenantDesc, Resuming, Resumed);
      }
      retv := failCnt + undone;
    }

    // The first critical section of removePodFromTenant. A pause counts the pods in the map and pops them
    // from the list: the tenant is left empty.
    method BeginRemove(tenant: string, cnt: nat, isPause: bool, now: int)
      returns (proceeds: bool, removeCnt: nat, podsToUnassign: seq<PodDesc>, rest: int)
      requires Valid() && tenant != WARM
      modifies this`M, tenantMap.Values, known.Values
      ensures Valid()
      ensures proceeds == (tenant in old(M).tenants &&
                           TenantOf(old(M), tenant).state == if isPause then Pausing else Resumed)
      ensures !proceeds ==> M == old(M)
      ensures proceeds ==>
                && removeCnt == (if isPause then |PodsOf(old(M), tenant)| else cnt)
                && NamesOf(podsToUnassign) == Popped(old(M), tenant, removeCnt) && rest == removeCnt - |podsToUnassign|
                && var m := Pop(old(M), tenant, removeCnt, now);
                   M == if isPause then Swap(m, tenant, Pausing, Paused) else m
      ensures AllKnown(podsToUnassign)
    {
      hide Valid, Pop, Popped;
      removeCnt, podsToUnassign, rest := 0, [], 0;
      Mirrors();
      var tenantDesc := GetTenantDesc(tenant);
      if tenantDesc == null || tenantDesc.State != (if isPause then Pausing else Resumed) {
        return false, 0, [], 0;
      }
      removeCnt := cnt;
      if isPause {
        removeCnt := tenantDesc.GetCntOfPods();
      }
      rest, podsToUnassign := PopPodsOf(tenantDesc, removeCnt, now);
      if isPause {
        var _ := SwitchState(tenantDesc, Pausing, Paused);
      }
      proceeds := true;
    }

    method EndRemove(tenantDesc: TenantDesc, undoList: seq<PodDesc>, rest: nat, now: int, ghost o: Op)
      returns (retv: nat)
      requires Valid() && Container(tenantDesc) && tenantDesc.Name == o.tenant && o.tenant != WARM
      requires AllKnown(undoList)
      requires o.kind == Removing && o.undo == NamesOf(undoList) && rest == o.want - |o.taken|
      modifies this`M, this`cntOfPending, this`tenantLastOpResultMap
      modifies WarmedPods`podMap, WarmedPods`podList, tenantDesc`podMap, tenantDesc`podList, known.Values
      ensures Valid() && retv == o.want - |o.taken| + |o.undo|
      ensures M == UndoAll(old(M), o, o.undo, now)
    {
      hide Valid, UndoAll, NamesOf;
      var undone := UndoPods(tenantDesc, undoList, now, o, false);
      retv := rest + undone;
    }

    // ---------------------------------------------------------------------------------------------
    // Whole operations

    // One goroutine of an operation, once its call has returned. A pod that is being unassigned already
    // is left to its delayed return.
    method Answer(c: TenantDesc, v: PodDesc, reply: Reply, now: int, ghost o: Op, adding: bool)
      requires Valid() && Container(c) && c.Name == o.tenant && adding == o.kind.Adding?
      requires v.Name in known && known[v.Name] == v
      modifies this`M, this`tenantMap, this`cntOfPending, this`tenantLastOpResultMap
      modifies WarmedPods, tenantMap.Values, known.Values
      ensures Valid() && M == ReplyOne(old(M), o, v.Name, reply, now)
      ensures forall t :: t in old(tenantMap) ==> t in tenantMap && tenantMap[t] == old(tenantMap)[t]
      ensures fresh(tenantMap.Values - old(tenantMap.Values))
    {
      hide Valid, PutAt, PutWarmed, Correct;
      match reply
      case Ok(stime) =>
        if adding {
          SetPodInAt(c, v, stime);
        } else {
          PutWarmedPod(c.Name, v, false, now);
        }
      case GrpcError =>
      case AppError(t, stime, isUnassigning) =>
        if !isUnassigning {
          UpdateLocalMetaPodOfTenant(v, t, stime, now);
        }
    }

    static lemma NoneAnswered(m: Meta, o: Op, replyOf: string -> Reply, now: int)
      ensures ReplyAll(m, o, [], replyOf, now) == m && Failed([], replyOf) == []
    {
    }

    static lemma OneMoreAnswered(m: Meta, o: Op, answered: seq<string>, n: string, replyOf: string -> Reply, now: int)
      ensures ReplyAll(m, o, answered + [n], replyOf, now) ==
                ReplyOne(ReplyAll(m, o, answered, replyOf, now), o, n, replyOf(n), now)
      ensures Failed(answered + [n], replyOf) == Failed(answered, replyOf) + if replyOf(n).GrpcError? then [n] else []
    {
      assert (answered + [n])[..|answered|] == answered;
    }

    // The order in which the goroutines of an operation hear back: any order.
    method ArrivalOrder(pods: seq<PodDesc>) returns (order: seq<PodDesc>)
      requires AllKnown(pods)
      ensures AllKnown(order) && multiset(NamesOf(order)) == multiset(NamesOf(pods))
    {
      hide NamesOf, AllKnown;
      NoNames();
      NoneKnown();
      var rest := pods;
      order := [];
      while rest != []
        invariant AllKnown(rest) && AllKnown(order)
        invariant multiset(NamesOf(order)) + multiset(NamesOf(rest)) == multiset(NamesOf(pods))
        decreases |rest|
      {
        var i :| 0 <= i < |rest|;
        NamesShrink(rest, i);
        KnownShrink(rest, i);
        NamesGrow(order, rest[i]);
        KnownGrow(order, rest[i]);
        order := order + [rest[i]];
        rest := rest[..i] + rest[i + 1..];
      }
    }

    // The calls of an operation, answered in any order, and nothing else in between.
    method AnswerAll(c: TenantDesc, pods: seq<PodDesc>, replyOf: string -> Reply, now: int, ghost o: Op, adding: bool)
      returns (undoList: seq<PodDesc>, ghost answered: seq<string>)
      requires Valid() && Container(c) && c.Name == o.tenant && adding == o.kind.Adding? && AllKnown(pods)
      modifies this`M, this`tenantMap, this`cntOfPending, this`tenantLastOpResultMap
      modifies WarmedPods, tenantMap.Values, known.Values
      ensures Valid() && Container(c) && multiset(answered) == multiset(NamesOf(pods))
      ensures M == ReplyAll(old(M), o, answered, replyOf, now)
      ensures NamesOf(undoList) == Failed(answered, replyOf) && AllKnown(undoList)
      ensures fresh(tenantMap.Values - old(tenantMap.Values))
    {
      hide Valid, NamesOf, ReplyAll, Failed, AllKnown;
      var order := ArrivalOrder(pods);
      NoneAnswered(M, o, replyOf, now);
      NoNames();
      NoneKnown();
      undoList := [];
      for i := 0 to |order|
        invariant Valid() && Container(c) && AllKnown(undoList)
        invariant M == ReplyAll(old(M), o, NamesOf(order[..i]), replyOf, now)
        invariant NamesOf(undoList) == Failed(NamesOf(order[..i]), replyOf)
        invariant fresh(tenantMap.Values - old(tenantMap.Values))
      {
        KnownShrink(order, i);
        NamesGrow(order[..i], order[i]);
        assert order[..i] + [order[i]] == order[..i + 1];
        OneMoreAnswered(old(M), o, NamesOf(order[..i]), order[i].Name, replyOf, now);
        undoList := WithFailed(undoList, order[i], replyOf(order[i].Name));
        Answer(c, order[i], replyOf(order[i].Name), now, o, adding);
      }
      assert order[..|order|] == order;
      answered := NamesOf(order);
    }

    method WithFailed(undoList: seq<PodDesc>, v: PodDesc, reply: Reply) returns (r: seq<PodDesc>)
      requires AllKnown(undoList) && v.Name in known && known[v.Name] == v
      ensures AllKnown(r) && NamesOf(r) == NamesOf(undoList) + if reply.GrpcError? then [v.Name] else []
    {
      hide AllKnown, NamesOf;
      r := undoList;
      if reply.GrpcError? {
        NamesGrow(undoList, v);
        KnownGrow(undoList, v);
        r := undoList + [v];
      }
    }

    // addPodIntoTenant from its first section to its return value.
    method AddPodIntoTenant(tenant: string, addCnt: nat, isResume: bool, replyOf: string -> Reply, now: int)
      returns (retv: int, ghost answered: seq<string>)
      requires Valid() && tenant != WARM
      modifies this`M, this`tenantMap, this`cntOfPending, this`tenantLastOpResultMap
      modifies WarmedPods, tenantMap.Values, known.Values
      ensures Valid()
      ensures if tenant in old(M).tenants && TenantOf(old(M), tenant).state == (if isResume then Resuming else Resumed)
              then
                && multiset(answered) == multiset(Warmed(old(M), addCnt))
                && M == AfterAdd(old(M), tenant, addCnt, isResume, answered, replyOf, now)
                && |answered| == MinInt(addCnt, |old(M).pool.pods|)
                && retv == addCnt - |answered| + |Failed(answered, replyOf)|
              else M == old(M) && retv == -1
    {
      hide Valid, TakeWarmed, Warmed, UndoAll, ReplyAll, Failed, NamesOf, Swap;
      answered := [];
      var tenantDesc := GetTenantDesc(tenant);
      if tenantDesc == null {
        return -1, [];
      }
      var proceeds, podsToAssign, failCnt := BeginAdd(tenant, addCnt, isResume, now);
      if !proceeds {
        return -1, [];
      }
      ghost var o := AddOp(old(M), tenant, addCnt, isResume);
      var undoList;
      undoList, answered := AnswerAll(tenantDesc, podsToAssign, replyOf, now, o, true);
      WarmedLength(old(M), addCnt);
      SameLength(answered, o.taken);
      retv := EndAdd(tenantDesc, undoList, failCnt, isResume, now, o.(undo := NamesOf(undoList)));
    }

    static lemma WarmedLength(m: Meta, cnt: nat)
      ensures |Warmed(m, cnt)| == MinInt(cnt, |m.pool.pods|)
    {
    }

    static lemma SameLength(a: seq<string>, b: seq<string>)
      requires multiset(a) == multiset(b)
      ensures |a| == |b|
    {
      assert |multiset(a)| == |a| && |multiset(b)| == |b|;
    }

    // removePodFromTenant from its first section to its return value.
    method RemovePodFromTenant(tenant: string, cnt: nat, isPause: bool, replyOf: string -> Reply, now: int)
      returns (retv: int, ghost answered: seq<string>)
      requires Valid() && tenant != WARM
      modifies this`M, this`tenantMap, this`cntOfPending, this`tenantLastOpResultMap
      modifies WarmedPods, tenantMap.Values, known.Values
      ensures Valid()
      ensures if tenant in old(M).tenants && TenantOf(old(M), tenant).state == (if isPause then Pausing else Resumed)
              then
                var o := RemoveOp(old(M), tenant, cnt, isPause);
                && multiset(answered) == multiset(o.taken)
                && M == AfterRemove(old(M), tenant, cnt, isPause, answered, replyOf, now)
                && |answered| == (if isPause then |old(M).tenants[tenant].pods|
                                  else MinInt(cnt, |old(M).tenants[tenant].pods|))
                && retv == (if isPause then 0 else cnt - |answered|) + |Failed(answered, replyOf)|
              else M == old(M) && retv == -1
    {
      hide Valid, Pop, Popped, UndoAll, ReplyAll, Failed, NamesOf, Swap;
      answered := [];
      var tenantDesc := GetTenantDesc(tenant);
      if tenantDesc == null {
        return -1, [];
      }
      var proceeds, removeCnt, podsToUnassign, rest := BeginRemove(tenant, cnt, isPause, now);
      if !proceeds {
        return -1, [];
      }
      ghost var o := RemoveOp(old(M), tenant, cnt, isPause);
      var undoList;
      undoList, answered := AnswerAll(tenantDesc, podsToUnassign, replyOf, now, o, false);
      PoppedLength(old(M), tenant, removeCnt);
      SameLength(answered, o.taken);
      retv := EndRemove(tenantDesc, undoList, rest, now, o.(undo := NamesOf(undoList)));
    }

    // ResizePodsOfTenant: the difference decides what is launched, and the result is dropped.
    method ResizePodsOfTenant(fromCnt: nat, target: nat, tenant: string, replyOf: string -> Reply, now: int)
      returns (ghost answered: seq<string>)
      requires Valid() && tenant != WARM
      modifies this`M, this`tenantMap, this`cntOfPending, this`tenantLastOpResultMap
      modifies WarmedPods, tenantMap.Values, known.Values
      ensures Valid()
      ensures var runs := tenant in old(M).tenants && TenantOf(old(M), tenant).state == Resumed;
              M == if runs && target > fromCnt
                   then AfterAdd(old(M), tenant, target - fromCnt, false, answered, replyOf, now)
                   else if runs && target < fromCnt
                   then AfterRemove(old(M), tenant, fromCnt - target, false, answered, replyOf, now)
                   else old(M)
      ensures tenant in old(M).tenants && TenantOf(old(M), tenant).state == Resumed ==>
                |answered| == if target > fromCnt then MinInt(target - fromCnt, |old(M).pool.pods|)
                              else MinInt(fromCnt - target, |old(M).tenants[tenant].pods|)
    {
      hide Valid, AfterAdd, AfterRemove, Warmed, Failed;
      answered := [];
      if target > fromCnt {
        var _, order := AddPodIntoTenant(tenant, target - fromCnt, false, replyOf, now);
        answered := order;
      } else if target < fromCnt {
        var _, order := RemovePodFromTenant(tenant, fromCnt - target, false, replyOf, now);
        answered := order;
      }
    }

    // ---------------------------------------------------------------------------------------------
    // Startup and resync

    // The first half of loadPods: every pod of the listing is updated.
    method LoadPods(pods: seq<Listed>, now: int)
      requires Valid()
      requires forall i :: 0 <= i < |pods| ==> pods[i].name in PodDescMap || pods[i].name !in known
      modifies this`M, this`known, this`PodDescMap, this`cntOfPending, this`tenantLastOpResultMap
      modifies WarmedPods`podMap, WarmedPods`podList, known.Values
      ensures Valid() && M == LoadAll(old(M), pods, now)
    {
      hide Valid, MetaSpec.UpdatePod;
      for i := 0 to |pods|
        invariant Valid() && M == LoadAll(old(M), pods[..i], now)
        invariant fresh(known.Values - old(known.Values))
        invariant forall j :: i <= j < |pods| ==> pods[j].name in PodDescMap || pods[j].name !in known
      {
        assert pods[..i + 1][..i] == pods[..i];
        UpdatePod(pods[i].name, pods[i].ip, now);
      }
      assert pods[..|pods|] == pods;
    }

    // The registered pods that the listing lacks, in the order of a map iteration.
    method ExpiredPods(podSet: set<string>) returns (pods2del: seq<string>)
      ensures NoDup(pods2del) && forall n :: n in pods2del <==> n in PodDescMap && n !in podSet
    {
      var left := PodDescMap.Keys - podSet;
      pods2del := [];
      while left != {}
        invariant NoDup(pods2del) && forall n :: n in PodDescMap.Keys - podSet <==> n in pods2del || n in left
        invariant forall n :: !(n in pods2del && n in left)
      {
        var k :| k in left;
        pods2del := pods2del + [k];
        left := left - {k};
      }
    }

    // The second half of loadPods.
    method TryToRemoveExpriedPod(podSet: set<string>, now: int) returns (pods2del: seq<string>)
      requires Valid()
      modifies this`M, this`PodDescMap, WarmedPods, tenantMap.Values, known.Values
      ensures Valid() && M == UnregisterAll(old(M), pods2del, now)
      ensures NoDup(pods2del) && forall n :: n in pods2del <==> n in old(M).registry && n !in podSet
    {
      hide Valid, Unregister;
      Mirrors();
      pods2del := ExpiredPods(podSet);
      for i := 0 to |pods2del|
        invariant Valid() && M == UnregisterAll(old(M), pods2del[..i], now)
        invariant M.registry == old(M).registry - ToSet(pods2del[..i])
      {
        assert pods2del[..i + 1] == pods2del[..i] + [pods2del[i]] && pods2del[..i + 1][..i] == pods2del[..i];
        assert pods2del[i] in pods2del && pods2del[i] !in pods2del[..i];
        var _ := HandleK8sDelPodEvent(pods2del[i], now);
      }
      assert pods2del[..|pods2del|] == pods2del;
    }

    method ReorderPods(c: TenantDesc)
      requires Named() && Container(c) && Tidy(ViewOf(c), known)
      modifies c`podList
      ensures unchanged(this) && Named() && Tidy(ViewOf(c), known)
      ensures Says() == old(Says()).(views := old(Says()).views[c.Name := ViewOf(c)])
      ensures |c.Names()| == |old(c.Names())| && NoDup(c.Names())
      ensures forall n :: n in c.Names() <==> n in old(c.Names())
      ensures forall i, j :: 0 <= i < j < |c.podList| ==> c.podList[i].Info().stime <= c.podList[j].Info().stime
    {
      hide Coherent;
      ghost var views, infos := Views(), Infos();
      c.SortPodsAtStartUp();
      NamesInMap(c.podMap, c.podList);
      forall t | t in tenantMap ensures ViewOf(tenantMap[t]) == views[c.Name := ViewOf(c)][t] {}
      ViewsAre(views[c.Name := ViewOf(c)]);
      forall n | n in known ensures known[n].Info() == infos[n] {}
      InfosAre(infos);
    }

    method SortTenant(c: TenantDesc)
      requires Valid() && Container(c) && c.Name != WARM
      modifies this`M, c`podList
      ensures Valid() && M == WithPods(old(M), c.Name, PodsOf(M, c.Name)) && SortedByStart(M, PodsOf(M, c.Name))
      ensures |PodsOf(M, c.Name)| == |PodsOf(old(M), c.Name)| && NoDup(PodsOf(M, c.Name))
      ensures forall n :: n in PodsOf(M, c.Name) <==> n in PodsOf(old(M), c.Name)
    {
      hide Agree, Tidy, NamesOf, Coherent, Named;
      ghost var o := Says();
      FiledUnder(c);
      MembersAgree(o, M, c.Name);
      ReorderPods(c);
      ListAgrees(o, M, c.Name, ViewOf(c));
      M := WithPods(M, c.Name, c.Names());
      assert Says() == o.(views := o.views[c.Name := ViewOf(c)]);
      ListIsSorted(c);
    }

    lemma ListIsSorted(c: TenantDesc)
      requires Named() && Agree(Says(), M) && Container(c)
      requires forall i, j :: 0 <= i < j < |c.podList| ==> c.podList[i].Info().stime <= c.podList[j].Info().stime
      ensures SortedByStart(M, PodsOf(M, c.Name)) && PodsOf(M, c.Name) == c.Names()
    {
      FiledUnder(c);
      MembersAgree(Says(), M, c.Name);
      forall i | 0 <= i < |c.podList| ensures InfoOf(M, c.Names()[i]) == c.podList[i].Info() {
        assert known[c.podList[i].Name] == c.podList[i];
      }
      hide Agree, Coherent, Tidy;
    }

    // The end of the scan at startup: every tenant's list is sorted.
    method SortTenants()
      requires Valid()
      modifies this`M, tenantMap.Values
      ensures Valid() && Rearranged(old(M), M)
      ensures forall t :: t in M.tenants ==> SortedByStart(M, M.tenants[t].pods)
    {
      hide Valid, SortedByStart;
      Mirrors();
      var left := tenantMap.Keys;
      while left != {}
        invariant Valid() && Rearranged(old(M), M) && left <= tenantMap.Keys
        invariant forall t :: t in M.tenants && t !in left ==> SortedByStart(M, M.tenants[t].pods)
      {
        Mirrors();
        var t :| t in left;
        ghost var before := M;
        SortTenant(tenantMap[t]);
        OthersStaySorted(before, M, t);
        left := left - {t};
      }
      Mirrors();
    }

    // ---------------------------------------------------------------------------------------------
    // What DoPodsWarm needs

    // DoPodsWarm's loop over the recent results: stale ones are forgotten on the way.
    method SumAndForget(now: int) returns (failCntTotal: int)
      modifies this`tenantLastOpResultMap
      ensures tenantLastOpResultMap == Recent(old(tenantLastOpResultMap), now)
      ensures failCntTotal == Unmet(Recent(old(tenantLastOpResultMap), now))
    {
      var left := tenantLastOpResultMap;
      ghost var results := left;
      failCntTotal := 0;
      while left != map[]
        invariant failCntTotal + Unmet(Recent(left, now)) == Unmet(Recent(results, now))
        invariant forall t :: t in left ==> t in results && left[t] == results[t]
        invariant tenantLastOpResultMap ==
          map t | t in results && (t in left || results[t].lastTs > now - FAIL_CNT_CHECK_TIME_WINDOW) :: results[t]
        decreases left.Keys
      {
        var t :| t in left;
        RecentWithout(left, t, now);
        if left[t].lastTs > now - FAIL_CNT_CHECK_TIME_WINDOW {
          failCntTotal := failCntTotal + left[t].failCnt;
        } else {
          tenantLastOpResultMap := tenantLastOpResultMap - {t};
        }
        left := left - {t};
      }
    }

    method CountShortfalls(now: int) returns (failCntTotal: int)
      requires Valid()
      modifies this`M, this`tenantLastOpResultMap
      ensures Valid() && M == Pruned(old(M), now)
      ensures failCntTotal == Unmet(Recent(old(M).pool.results, now))
    {
      hide Agree, Recent, Unmet;
      Mirrors();
      ghost var o := Says();
      PoolAgrees(o, M, cntOfPending, Recent(tenantLastOpResultMap, now));
      M := Pruned(M, now);
      failCntTotal := SumAndForget(now);
      assert Says() == o.(results := tenantLastOpResultMap);
    }

    // The revert of a failed shrink.
    method PutBackPods(pods: seq<PodDesc>, now: int)
      requires Valid()
      requires AllKnown(pods)
      modifies this`M, this`cntOfPending, this`tenantLastOpResultMap
      modifies WarmedPods`podMap, WarmedPods`podList, known.Values
      ensures Valid() && M == PutBack(old(M), NamesOf(pods), now)
    {
      hide Valid, PutWarmed, NamesOf;
      ghost var names := NamesOf(pods);
      for i := 0 to |pods|
        invariant Valid() && M == PutBack(old(M), names[..i], now)
      {
        assert names[..i + 1][..i] == names[..i];
        PutWarmedPod(WARM, pods[i], false, now);
      }
      assert names[..|pods|] == names;
    }
  }
}
