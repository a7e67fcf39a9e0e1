// The CloneSet and the rounds that resize it (autoscale/cluster.go, autoscale/meta.go).
module Cluster {
  import opened Numbers
  import opened NameLists
  import opened MetaSpec
  import opened Containers
  import opened Protocol
  import opened WarmRounds
  import opened ScaleMeta

  datatype CloneSet = CloneSet(replicas: int, podsToDelete: seq<string>)

  // Kubernetes' copy of the CloneSet. This controller is its only writer; an update is committed or
  // fails without effect. The counters tell what the server did, so that a contract can say when a
  // caller may give up.
  class CloneSetServer {
    var spec: CloneSet
    ghost var commits: nat    // updates committed
    ghost var refusals: nat   // updates refused
    ghost var lostGets: nat   // fetches that failed

    constructor (spec: CloneSet)
      ensures this.spec == spec && commits == refusals == lostGets == 0
    {
      this.spec := spec;
      commits, refusals, lostGets := 0, 0, 0;
    }

    method Update(want: CloneSet) returns (err: bool, ret: CloneSet)
      modifies this`spec, this`commits, this`refusals
      ensures if err then spec == old(spec) && commits == old(commits) && refusals == old(refusals) + 1
              else spec == want == ret && commits == old(commits) + 1 && refusals == old(refusals)
    {
      ret := want;
      if * {
        err, refusals := true, refusals + 1;
      } else {
        spec, commits := want, commits + 1;
        err := false;
      }
    }

    method Get() returns (err: bool, ret: CloneSet)
      modifies this`lostGets
      ensures lostGets == old(lostGets) + if err then 1 else 0
      ensures !err ==> ret == spec
    {
      ret := spec;
      err := *;
      if err { lostGets := lostGets + 1; }
    }
  }

  class ClusterManager {
    const server: CloneSetServer
    const meta: AutoScaleMeta
    var cloneSet: CloneSet            // the cached copy
    ghost var condemned: set<string>  // pods named in a committed removal

    // The cache has the server's replica count, and neither copy ever asks to delete a pod that was not
    // given up.
    ghost predicate Valid()
      reads this, server
    {
      && cloneSet.replicas == server.spec.replicas
      && (forall n :: n in cloneSet.podsToDelete ==> n in condemned)
      && (forall n :: n in server.spec.podsToDelete ==> n in condemned)
    }

    constructor (meta: AutoScaleMeta, server: CloneSetServer)
      requires server.spec.podsToDelete == []
      ensures Valid() && this.meta == meta && this.server == server && condemned == {}
    {
      this.meta, this.server := meta, server;
      cloneSet, condemned := server.spec, {};
    }

    // createCloneSet, called when the cluster has no CloneSet yet: every replica is a pending pod.
    method CreateCloneSet()
      requires Valid() && meta.Valid() && server.spec.replicas == 0
      modifies this`cloneSet, server, meta`M, meta`cntOfPending
      ensures Valid() && meta.Valid()
      ensures server.spec.replicas == meta.SoftLimit
      ensures meta.M == WithPending(old(meta.M), old(meta.M).pool.pending + meta.SoftLimit)
    {
      hide AutoScaleMeta.Valid;
      meta.Mirrors();
      meta.SetPending(meta.cntOfPending + meta.SoftLimit);
      server.spec := CloneSet(meta.SoftLimit, []);
      cloneSet := server.spec;
    }

    // A failed update is answered by fetching the CloneSet again.
    method HandleCloneSetApiError() returns (handled: bool)
      requires Valid()
      modifies this`cloneSet, server`lostGets
      ensures Valid() && cloneSet == if handled then server.spec else old(cloneSet)
      ensures server.lostGets == old(server.lostGets) + if handled then 0 else 1
    {
      var err, ret := server.Get();
      if err {
        return false;
      }
      cloneSet := ret;
      return true;
    }

    // An addition deletes nothing, but it sends whatever deletion list the copy it starts from carries:
    // the cached one, or after a refetch the server's. With both alike it names no pod exactly when the
    // list was empty before. It gives up exactly when a refetch fails or every retry has been refused.
    method AddNewPods(delta: int, retryCnt: int) returns (err: bool)
      requires Valid()
      modifies this`cloneSet, server
      ensures Valid()
      ensures server.spec.replicas == old(server.spec.replicas) + if err then 0 else delta
      ensures server.commits == old(server.commits) + if err then 0 else 1
      ensures err <==> server.lostGets > old(server.lostGets) ||
                       server.refusals - old(server.refusals) > MaxInt(retryCnt, 0)
      ensures server.lostGets >= old(server.lostGets) && server.refusals >= old(server.refusals)
      ensures if err then server.spec == old(server.spec) && (cloneSet == old(cloneSet) || cloneSet == server.spec)
              else cloneSet == server.spec
      ensures !err ==>
        server.spec.podsToDelete == old(cloneSet.podsToDelete) ||
        server.spec.podsToDelete == old(server.spec.podsToDelete)
      ensures !err && old(cloneSet.podsToDelete) == old(server.spec.podsToDelete) ==>
        (server.spec.podsToDelete == [] <==> old(cloneSet.podsToDelete) == [])
      decreases retryCnt
    {
      var oldReplica := cloneSet.replicas;
      cloneSet := cloneSet.(replicas := cloneSet.replicas + delta);
      var failed, ret := server.Update(cloneSet);
      if failed {
        cloneSet := cloneSet.(replicas := oldReplica);
        var handled := HandleCloneSetApiError();
        if handled && retryCnt > 0 {
          err := AddNewPods(delta, retryCnt - 1);
          return;
        }
        return true;
      }
      cloneSet := ret;
      return false;
    }

    // On success only the returned copy has its deletion list reset: the cache keeps naming the pods,
    // and later updates send those names again. It gives up as an addition does.
    method RemovePods(pods2del: seq<string>, retryCnt: int) returns (err: bool)
      requires Valid()
      modifies this`cloneSet, this`condemned, server
      ensures Valid()
      ensures server.spec.replicas == old(server.spec.replicas) - if err then 0 else |pods2del|
      ensures server.commits == old(server.commits) + if err then 0 else 1
      ensures err <==> server.lostGets > old(server.lostGets) ||
                       server.refusals - old(server.refusals) > MaxInt(retryCnt, 0)
      ensures server.lostGets >= old(server.lostGets) && server.refusals >= old(server.refusals)
      ensures if err then server.spec == old(server.spec) && condemned == old(condemned)
              else condemned == old(condemned) + ToSet(pods2del) && cloneSet == server.spec &&
                   server.spec.podsToDelete == pods2del
      decreases retryCnt
    {
      var oldReplica := cloneSet.replicas;
      cloneSet := CloneSet(cloneSet.replicas - |pods2del|, pods2del);
      var failed, ret := server.Update(cloneSet);
      if failed {
        cloneSet := CloneSet(oldReplica, []);
        var handled := HandleCloneSetApiError();
        if handled && retryCnt > 0 {
          err := RemovePods(pods2del, retryCnt - 1);
          return;
        }
        return true;
      }
      cloneSet := ret;
      condemned := condemned + ToSet(pods2del);
      return false;
    }

    // An addition right after a removal asks to delete the removed pods a second time.
    method RemoveThenAdd(pods2del: seq<string>, delta: int, retryCnt: int) returns (removeErr: bool, addErr: bool)
      requires Valid()
      modifies this`cloneSet, this`condemned, server
      ensures Valid()
      ensures server.lostGets == old(server.lostGets) && server.refusals <= old(server.refusals) + MaxInt(retryCnt, 0)
              ==> !removeErr && !addErr
      ensures !removeErr && !addErr ==>
        && server.spec == CloneSet(old(server.spec.replicas) - |pods2del| + delta, pods2del)
        && server.commits == old(server.commits) + 2
    {
      removeErr := RemovePods(pods2del, retryCnt);
      addErr := AddNewPods(delta, retryCnt);
    }

    // What the round's request does to the replica count when it is committed.
    static function Change(r: Request): int {
      match r
      case Nothing => 0
      case More(delta) => delta
      case Fewer(pods) => -|pods|
    }

    static ghost function GivenUp(r: Request): set<string> {
      if r.Fewer? then ToSet(r.pods) else {}
    }

    // One round: the pool, the pending count and the replicas end up exactly as AfterRound and Asked say,
    // and a round that reports an error has not touched the server. It does so exactly when a refetch was
    // lost or the update and both its retries were refused.
    method DoPodsWarm(now: int) returns (err: bool)
      requires Valid() && meta.Valid()
      modifies this`cloneSet, this`condemned, server
      modifies meta`M, meta`cntOfPending, meta`tenantLastOpResultMap
      modifies meta.WarmedPods`podMap, meta.WarmedPods`podList, meta.known.Values
      ensures Valid() && meta.Valid()
      ensures meta.M == AfterRound(old(meta.M), meta.SoftLimit, now, !err)
      ensures server.spec.replicas ==
        old(server.spec.replicas) + if err then 0 else Change(Asked(old(meta.M), meta.SoftLimit, now))
      ensures server.spec.replicas - meta.M.pool.pending - |meta.M.pool.pods| ==
        old(server.spec.replicas - meta.M.pool.pending - |meta.M.pool.pods|)
      ensures err ==> server.spec == old(server.spec)
      ensures err <==> server.lostGets > old(server.lostGets) || server.refusals >= old(server.refusals) + 3
      ensures server.commits == old(server.commits) +
        if err || Asked(old(meta.M), meta.SoftLimit, now).Nothing? then 0 else 1
      ensures condemned == old(condemned) + if err then {} else GivenUp(Asked(old(meta.M), meta.SoftLimit, now))
      ensures !err && Asked(old(meta.M), meta.SoftLimit, now).Fewer? ==>
        server.spec.podsToDelete == Asked(old(meta.M), meta.SoftLimit, now).pods
    {
      hide AutoScaleMeta.Valid, Recent, Unmet, TakeWarmed, PutBack, NamesOf;
      err := false;
      ghost var m := meta.M;
      var failCntTotal := meta.CountShortfalls(now);
      meta.Mirrors();
      meta.PoolMembers();
      RoundConserves(m, meta.SoftLimit, now, true);
      RoundConserves(m, meta.SoftLimit, now, false);
      var warm := meta.WarmedPods.GetCntOfPods();
      var delta := failCntTotal + meta.SoftLimit - (meta.cntOfPending + warm);
      assert delta == Delta(m, meta.SoftLimit, now);
      if delta > 0 {
        meta.SetPending(meta.cntOfPending + delta);
        err := AddNewPods(delta, 2);
        if err {
          meta.SetPending(meta.cntOfPending - delta);
        }
      } else if delta < 0 {
        var overCnt := warm - meta.SoftLimit;
        if overCnt > 0 {
          assert |Warmed(m, MinInt(-delta, overCnt))| == MinInt(-delta, overCnt);
          err := GiveUpPods(MinInt(-delta, overCnt), now);
        }
      }
    }

    method GiveUpPods(removeCnt: nat, now: int) returns (err: bool)
      requires Valid() && meta.Valid()
      modifies this`cloneSet, this`condemned, server
      modifies meta`M, meta`cntOfPending, meta`tenantLastOpResultMap
      modifies meta.WarmedPods`podMap, meta.WarmedPods`podList, meta.known.Values
      ensures Valid() && meta.Valid()
      ensures var pods := Warmed(old(meta.M), removeCnt);
              var left := TakeWarmed(old(meta.M), WARM, removeCnt, now);
              && meta.M == (if err then PutBack(left, pods, now) else left)
              && server.spec.replicas == old(server.spec.replicas) - (if err then 0 else |pods|)
      ensures err ==> server.spec == old(server.spec)
      ensures err <==> server.lostGets > old(server.lostGets) || server.refusals >= old(server.refusals) + 3
      ensures server.commits == old(server.commits) + if err then 0 else 1
      ensures condemned == old(condemned) + if err then {} else ToSet(Warmed(old(meta.M), removeCnt))
      ensures !err ==> server.spec.podsToDelete == Warmed(old(meta.M), removeCnt)
    {
      hide AutoScaleMeta.Valid, TakeWarmed, PutBack, NamesOf;
      var podsToDel, _ := meta.GetWarmedPods(WARM, removeCnt, now);
      var podNames := [];
      for i := 0 to |podsToDel|
        invariant podNames == NamesOf(podsToDel)[..i]
      {
        podNames := podNames + [podsToDel[i].Name];
      }
      err := RemovePods(podNames, 2);
      if err {
        meta.PutBackPods(podsToDel, now);
      }
    }

    // Resume: the swap to Resuming, and then the whole addition, whose result is waited for; nothing else
    // in between. It reports success exactly when the tenant was paused.
    method Resume(tenant: string, initCnt: nat, replyOf: string -> Reply, now: int)
      returns (ok: bool, ghost answered: seq<string>)
      requires meta.Valid() && tenant != WARM
      modifies meta`M, meta`tenantMap, meta`cntOfPending, meta`tenantLastOpResultMap
      modifies meta.WarmedPods, meta.tenantMap.Values, meta.known.Values
      ensures meta.Valid()
      ensures ok == (tenant in old(meta.M).tenants && TenantOf(old(meta.M), tenant).state == Paused)
      ensures ok ==> multiset(answered) == multiset(Warmed(old(meta.M), initCnt))
      ensures ok ==> |answered| == MinInt(initCnt, |old(meta.M).pool.pods|)
      ensures meta.M == if ok then Resumption(old(meta.M), tenant, initCnt, answered, replyOf, now) else old(meta.M)
    {
      hide AutoScaleMeta.Valid, AfterAdd, Warmed, Failed;
      answered := [];
      var ret := meta.AsyncResume(tenant);
      var addPodsResult := -1;
      if ret {
        ResumingPool(old(meta.M), tenant, initCnt);
        addPodsResult, answered := meta.AddPodIntoTenant(tenant, initCnt, true, replyOf, now);
        WarmedAtMost(old(meta.M), initCnt);
      }
      ok := ret && addPodsResult != -1;
    }

    // A resume of a paused tenant, from the swap to the end of its addition.
    static ghost function Resumption(m: Meta, t: string, cnt: nat, answered: seq<string>, replyOf: string -> Reply,
                                     now: int): Meta {
      AfterAdd(WithState(m, t, Resuming), t, cnt, true, answered, replyOf, now)
    }

    static lemma ResumingPool(m: Meta, t: string, cnt: nat)
      requires t in m.tenants && t != WARM
      ensures Warmed(WithState(m, t, Resuming), cnt) == Warmed(m, cnt)
      ensures t in WithState(m, t, Resuming).tenants && TenantOf(WithState(m, t, Resuming), t).state == Resuming
    {
    }

    static lemma WarmedAtMost(m: Meta, cnt: nat)
      ensures |Warmed(m, cnt)| <= cnt
    {
    }

    // The head of an analysis round. A disabled tenant is paused, a paused tenant that still holds pods
    // is resumed, and only an enabled tenant in Resumed is analyzed.
    method CheckState(tenant: string, disabled: bool, initCnt: nat, replyOf: string -> Reply, now: int)
      returns (proceeds: bool, ghost answered: seq<string>)
      requires meta.Valid() && tenant in meta.M.tenants && tenant != WARM
      modifies meta`M, meta`tenantMap, meta`cntOfPending, meta`tenantLastOpResultMap
      modifies meta.WarmedPods, meta.tenantMap.Values, meta.known.Values
      ensures meta.Valid()
      ensures var m := old(meta.M);
              var t := TenantOf(m, tenant);
              && proceeds == (!disabled && t.state == Resumed)
              && meta.M == (if disabled && t.state == Resumed then WithState(m, tenant, Pausing)
                            else if !disabled && t.state == Paused && t.pods != []
                            then Resumption(m, tenant, initCnt, answered, replyOf, now)
                            else m)
    {
      hide AutoScaleMeta.Valid, Resumption;
      answered := [];
      if disabled {
        var _ := meta.AsyncPause(tenant);
        return false, [];
      }
      var tenantDesc := meta.GetTenantDesc(tenant);
      var isStateCorrect, expectedState := tenantDesc.IsStateCorrect();
      if !isStateCorrect {
        if expectedState == Resumed {   // the branch for an expected Paused cannot be reached
          var _, order := Resume(tenant, initCnt, replyOf, now);
          answered := order;
        }
        return false, answered;
      }
      proceeds := tenantDesc.State == Resumed;
    }
  }
}
