// One round of DoPodsWarm (autoscale/meta.go) as a function: how many pods the pool asks for or gives
// up, and what the round leaves behind when the CloneSet update is committed and when it fails.
module WarmRounds {
  import opened Numbers
  import opened NameLists
  import opened MetaSpec
  import opened Protocol

  const FAIL_CNT_CHECK_TIME_WINDOW := 300

  // The results that are recent enough to count; the round forgets the others.
  function Recent(results: map<string, OpResult>, now: int): map<string, OpResult> {
    map t | t in results && results[t].lastTs > now - FAIL_CNT_CHECK_TIME_WINDOW :: results[t]
  }

  // Pods that operations wanted and did not get.
  ghost function Unmet(results: map<string, OpResult>): int {
    if results == map[] then 0
    else var t :| t in results; results[t].failCnt + Unmet(results - {t})
  }

  // Any entry may be counted first.
  lemma {:induction false} UnmetWithout(results: map<string, OpResult>, t: string)
    requires t in results
    ensures Unmet(results) == results[t].failCnt + Unmet(results - {t})
    decreases |results|
  {
    var u :| u in results && Unmet(results) == results[u].failCnt + Unmet(results - {u});
    if u != t {
      UnmetWithout(results - {u}, t);
      UnmetWithout(results - {t}, u);
      assert results - {u} - {t} == results - {t} - {u};
    }
  }

  lemma RecentWithout(results: map<string, OpResult>, t: string, now: int)
    requires t in results
    ensures Unmet(Recent(results, now)) == Unmet(Recent(results - {t}, now)) +
              if results[t].lastTs > now - 300 then results[t].failCnt else 0
  {
    if results[t].lastTs > now - FAIL_CNT_CHECK_TIME_WINDOW {
      UnmetWithout(Recent(results, now), t);
      assert Recent(results, now) - {t} == Recent(results - {t}, now);
    } else {
      assert Recent(results, now) == Recent(results - {t}, now);
    }
  }

  function Pruned(m: Meta, now: int): Meta {
    m.(pool := m.pool.(results := Recent(m.pool.results, now)))
  }

  ghost function Delta(m: Meta, softLimit: int, now: int): int {
    Unmet(Recent(m.pool.results, now)) + softLimit - (m.pool.pending + |m.pool.pods|)
  }

  // What the round asks of the CloneSet.
  datatype Request = Nothing | More(delta: nat) | Fewer(pods: seq<string>)

  ghost function Asked(m: Meta, softLimit: int, now: int): Request {
    var delta := Delta(m, softLimit, now);
    var overCnt := |m.pool.pods| - softLimit;
    if delta > 0 then More(delta)
    else if delta < 0 && overCnt > 0 then Fewer(Warmed(m, MinInt(-delta, overCnt)))
    else Nothing
  }

  ghost function AfterRound(m: Meta, softLimit: int, now: int, committed: bool): Meta {
    var p := Pruned(m, now);
    match Asked(m, softLimit, now)
    case Nothing => p
    case More(delta) => if committed then WithPending(p, p.pool.pending + delta) else p
    case Fewer(pods) =>
      var left := TakeWarmed(p, WARM, |pods|, now);
      if committed then left else PutBack(left, pods, now)
  }

  lemma RecentTwice(results: map<string, OpResult>, now: int)
    ensures Recent(Recent(results, now), now) == Recent(results, now)
  {
  }

  // A committed round is a fixed point: right after it, another round asks for nothing and changes
  // nothing, whatever the CloneSet would have answered.
  lemma SecondRoundDoesNothing(m: Meta, softLimit: nat, now: int, committed: bool)
    ensures var m2 := AfterRound(m, softLimit, now, true);
            Asked(m2, softLimit, now) == Nothing && AfterRound(m2, softLimit, now, committed) == m2
  {
    RecentTwice(m.pool.results, now);
  }

  // Growth closes the gap to the soft limit and the recent unmet demand exactly. A surplus is given up as
  // far as the pool keeps its soft limit, oldest pods first.
  lemma RoundMeetsDemand(m: Meta, softLimit: nat, now: int)
    ensures var m2 := AfterRound(m, softLimit, now, true);
            var warm := |m.pool.pods|;
            var gap := softLimit + Unmet(Recent(m.pool.results, now)) - m.pool.pending - warm;
            && (gap >= 0 ==> m2.pool.pending == m.pool.pending + gap && m2.pool.pods == m.pool.pods)
            && (gap < 0 ==>
                  && m2.pool.pending == m.pool.pending
                  && |m2.pool.pods| == (if warm <= softLimit then warm else MaxInt(warm + gap, softLimit))
                  && m2.pool.pods == m.pool.pods[warm - |m2.pool.pods|..])
            && m2.tenants == m.tenants && m2.registry == m.registry
  {
  }

  // ---------------------------------------------------------------------------------------------
  // How the tenants' operations steer the next round

  // The shortfall of tenant t that a round at `later` still counts.
  function StillUnmet(m: Meta, t: string, later: int): int {
    var recent := Recent(m.pool.results, later);
    if t in recent then recent[t].failCnt else 0
  }

  lemma NewResult(results: map<string, OpResult>, t: string, r: OpResult, later: int)
    requires r.lastTs > later - 300
    ensures var recent := Recent(results, later);
            Unmet(Recent(results[t := r], later)) ==
              Unmet(recent) + r.failCnt - if t in recent then recent[t].failCnt else 0
  {
    var before, after := Recent(results, later), Recent(results[t := r], later);
    UnmetWithout(after, t);
    assert after - {t} == before - {t};
    if t in before {
      UnmetWithout(before, t);
    } else {
      assert before - {t} == before;
    }
  }

  // Whatever the pool could give, the next rounds make up for all the pods the tenant wanted: those it
  // took and those it did not get. Its earlier shortfall no longer counts.
  lemma WantsAreMadeUpFor(m: Meta, t: string, cnt: nat, now: int, softLimit: nat, later: int)
    requires t != WARM && later < now + 300
    ensures Delta(TakeWarmed(m, t, cnt, now), softLimit, later) ==
              Delta(m, softLimit, later) + cnt - StillUnmet(m, t, later)
  {
    NewResult(m.pool.results, t, OpResult(cnt - MinInt(cnt, |m.pool.pods|), now), later);
    hide Recent, Unmet;
  }

  // A pod given back lowers the demand by one and withdraws its tenant's shortfall.
  lemma ReturnsAreCounted(m: Meta, t: string, pod: string, now: int, softLimit: nat, later: int)
    requires t != WARM && later < now + 300 && pod !in m.pool.pods
    ensures Delta(PutWarmed(m, t, pod, false, now), softLimit, later) ==
              Delta(m, softLimit, later) - 1 - StillUnmet(m, t, later)
  {
    NewResult(m.pool.results, t, OpResult(0, now), later);
    hide Recent, Unmet;
  }

  // A new pod that was waited for changes no demand; one nobody waited for lowers it.
  lemma ArrivalsAreExpected(m: Meta, pod: string, now: int, softLimit: nat, later: int)
    requires pod !in m.pool.pods
    ensures Delta(PutWarmed(m, WARM, pod, true, now), softLimit, later) ==
              Delta(m, softLimit, later) - if m.pool.pending > 0 then 0 else 1
  {
    hide Recent, Unmet;
  }

  // The recorded results after a step: an addition records what it did not get when it takes its pods, and
  // a pod that comes back to the pool from a tenant clears that tenant's shortfall. Nothing else counts.
  ghost predicate Records(s: State, e: Step, results: map<string, OpResult>)
    requires Enabled(s, e)
  {
    var before := s.meta.pool.results;
    match e
    case Begin(op, now) =>
      var o, ops := s.ops[op], Apply(s, e).ops;
      results == if o.kind == Adding && op in ops
                 then before[o.tenant := OpResult(o.want - |ops[op].taken|, now)] else before
    case Replied(op, _, reply, now) =>
      results == if s.ops[op].kind == Removing && reply.Ok?
                 then before[s.ops[op].tenant := OpResult(0, now)] else before
    case Finish(op, now) =>
      results == if s.ops[op].kind == Adding && exists n :: n in s.ops[op].undo && n in s.meta.registry
                 then before[s.ops[op].tenant := OpResult(0, now)] else before
    case DelayOver(pod, now) =>
      results == if s.delayed[pod] != "" then before[s.delayed[pod] := OpResult(0, now)] else before
    case _ => results == before
  }

  lemma StepRecords(s: State, e: Step)
    requires Enabled(s, e) && forall op :: op in s.ops ==> s.ops[op].tenant != WARM
    ensures Records(s, e, Apply(s, e).meta.pool.results)
  {
    hide Begun, RepliedTo, Correct, PutBack, PutWarmed, UpdatePod, Unregister, UndoAll, Swap, TakeWarmed, Warmed;
    hide Move, Settle, InHands;
    match e
    case Begin(op, now) => BeginRecords(s, op, now);
    case Replied(op, pod, reply, now) => ReplyRecords(s, op, pod, reply, now);
    case Finish(op, now) =>
      UndoRecords(s.meta, s.ops[op], s.ops[op].undo, now);
      SwapRecords(UndoAll(s.meta, s.ops[op], s.ops[op].undo, now), s.ops[op].tenant, Resuming, Resumed);
    case ShrinkAnswered(_, now) => PutBackRecords(s.meta, s.warming.chosen, now);
    case ShrinkAsked(cnt, now) => TakeRecords(s.meta, cnt, now);
    case PodEvent(pod, ip, now) => EventRecords(s.meta, pod, ip, now);
    case PodGone(pod, now) => UnregisterRecords(s.meta, pod, now);
    case ScanAnswered(pod, a, now) => CorrectRecords(s.meta, pod, a.tenant, a.stime, now);
    case DelayOver(pod, now) => PutRecords(s.meta, s.delayed[pod], pod, false, now);
    case _ =>
  }

  lemma BeginRecords(s: State, op: int, now: int)
    requires Enabled(s, Begin(op, now)) && s.ops[op].tenant != WARM
    ensures Records(s, Begin(op, now), Begun(s, op, now).meta.pool.results)
  {
    hide Move, Popped, PodsOf;
  }

  lemma ReplyRecords(s: State, op: int, pod: string, reply: Reply, now: int)
    requires Enabled(s, Replied(op, pod, reply, now)) && s.ops[op].tenant != WARM
    ensures Records(s, Replied(op, pod, reply, now), RepliedTo(s, op, pod, reply, now).meta.pool.results)
  {
    if reply.AppError? { CorrectRecords(s.meta, pod, reply.tenant, reply.stime, now); }
    hide Correct, Append;
  }

  lemma SwapRecords(m: Meta, t: string, from: TenantState, to: TenantState)
    ensures Swap(m, t, from, to).pool == m.pool
  {
  }

  lemma TakeRecords(m: Meta, cnt: nat, now: int)
    ensures TakeWarmed(m, WARM, cnt, now).pool.results == m.pool.results
  {
  }

  lemma PutRecords(m: Meta, from: string, pod: string, isNew: bool, now: int)
    ensures PutWarmed(m, from, pod, isNew, now).pool.results ==
              if from == "" then m.pool.results else m.pool.results[from := OpResult(0, now)]
  {
    hide Append;
  }

  lemma EventRecords(m: Meta, pod: string, ip: string, now: int)
    ensures UpdatePod(m, pod, ip, now).pool.results == m.pool.results
  {
    hide Append;
  }

  lemma CorrectRecords(m: Meta, pod: string, t: string, stime: int, now: int)
    ensures Correct(m, pod, t, stime, now).pool.results == m.pool.results
  {
    hide Append, Without;
  }

  lemma UnregisterRecords(m: Meta, pod: string, now: int)
    ensures Unregister(m, pod, now).pool.results == m.pool.results
  {
    hide Without;
  }

  lemma {:induction false} UndoRecords(m: Meta, o: Op, undo: seq<string>, now: int)
    requires o.tenant != WARM
    ensures UndoAll(m, o, undo, now).registry == m.registry
    ensures UndoAll(m, o, undo, now).pool.results ==
              if o.kind == Adding && exists n :: n in undo && n in m.registry
              then m.pool.results[o.tenant := OpResult(0, now)] else m.pool.results
  {
    if undo != [] {
      var last, rest := undo[|undo| - 1], undo[..|undo| - 1];
      assert undo == rest + [last];
      UndoRecords(m, o, rest, now);
    }
  }

  lemma {:induction false} PutBackRecords(m: Meta, pods: seq<string>, now: int)
    ensures PutBack(m, pods, now).pool.results == m.pool.results
  {
    if pods != [] { PutBackRecords(m, pods[..|pods| - 1], now); }
  }

  // ---------------------------------------------------------------------------------------------
  // Rounds that fail

  lemma {:induction false} PutBackAppends(m: Meta, pods: seq<string>, now: int)
    requires NoDup(pods) && forall n :: n in pods ==> n !in m.pool.pods
    ensures var m2 := PutBack(m, pods, now);
            && m2.pool.pods == m.pool.pods + pods
            && m2.pool.pending == m.pool.pending && m2.pool.results == m.pool.results
            && m2.tenants == m.tenants && m2.registry == m.registry && m2.mode == m.mode
  {
    if pods == [] {
    } else {
      var last := pods[|pods| - 1];
      var rest := pods[..|pods| - 1];
      assert pods == rest + [last];
      PutBackAppends(m, rest, now);
    }
  }

  // A failed round puts everything back: the pending count and the pool's pods are as before, only the
  // order of the pool has rotated.
  lemma FailureRestores(m: Meta, softLimit: nat, now: int)
    requires NoDup(m.pool.pods)
    ensures var m2 := AfterRound(m, softLimit, now, false);
            var k := if Asked(m, softLimit, now).Fewer? then |Asked(m, softLimit, now).pods| else 0;
            && m2.pool.pending == m.pool.pending
            && k <= |m.pool.pods| && m2.pool.pods == m.pool.pods[k..] + m.pool.pods[..k]
            && (forall n :: n in m2.pool.pods <==> n in m.pool.pods)
            && m2.tenants == m.tenants && m2.registry == m.registry
  {
    var pods := m.pool.pods;
    match Asked(m, softLimit, now)
    case Fewer(chosen) =>
      var k := |chosen|;
      CutIsPartition(pods, k);
      PutBackAppends(TakeWarmed(Pruned(m, now), WARM, k, now), pods[..k], now);
      assert pods == pods[..k] + pods[k..];
    case _ =>
  }

  // Replicas asked for are pods awaited or held: a round changes the pending pods and the pool together by
  // exactly the replicas it adds or gives up, and by nothing when it fails.
  lemma RoundConserves(m: Meta, softLimit: nat, now: int, committed: bool)
    requires NoDup(m.pool.pods)
    ensures var m2, asked := AfterRound(m, softLimit, now, committed), Asked(m, softLimit, now);
            m2.pool.pending + |m2.pool.pods| == m.pool.pending + |m.pool.pods| +
              if !committed || asked.Nothing? then 0 else if asked.More? then asked.delta else -|asked.pods|
  {
    if !committed { FailureRestores(m, softLimit, now); }
    hide Recent, Unmet;
  }

  lemma GrowInSteps(s: State, delta: nat, committed: bool)
    requires s.ready && s.warming == Idle
    ensures var r := Apply(Apply(s, GrowAsked(delta)), GrowAnswered(committed));
            && r.meta == (if committed then WithPending(s.meta, s.meta.pool.pending + delta) else s.meta)
            && r.replicas == s.replicas + if committed then delta else 0
  {
  }

  lemma ShrinkInSteps(s: State, cnt: nat, now: int, committed: bool)
    requires s.ready && s.warming == Idle
    ensures var r := Apply(Apply(s, ShrinkAsked(cnt, now)), ShrinkAnswered(committed, now));
            var left, pods := TakeWarmed(s.meta, WARM, cnt, now), Warmed(s.meta, cnt);
            && r.meta == (if committed then left else PutBack(left, pods, now))
            && r.replicas == s.replicas - (if committed then |pods| else 0)
  {
    hide PutBack, TakeWarmed, Warmed, Move;
  }

  // A round is the protocol's two steps: the request under one lock, the CloneSet's answer later.
  lemma RoundInSteps(s: State, softLimit: nat, now: int, committed: bool)
    requires s.ready && s.warming == Idle
    ensures var s0, asked := s.(meta := Pruned(s.meta, now)), Asked(s.meta, softLimit, now);
            && (asked.Nothing? ==> AfterRound(s.meta, softLimit, now, committed) == s0.meta)
            && (asked.More? ==>
                  Apply(Apply(s0, GrowAsked(asked.delta)), GrowAnswered(committed)).meta ==
                    AfterRound(s.meta, softLimit, now, committed))
            && (asked.Fewer? ==>
                  Apply(Apply(s0, ShrinkAsked(|asked.pods|, now)), ShrinkAnswered(committed, now)).meta ==
                    AfterRound(s.meta, softLimit, now, committed))
  {
    hide PutBack, TakeWarmed, Apply, Unmet;
    var s0 := s.(meta := Pruned(s.meta, now));
    match Asked(s.meta, softLimit, now)
    case Nothing =>
    case More(delta) => GrowInSteps(s0, delta, committed);
    case Fewer(pods) => ShrinkInSteps(s0, |pods|, now, committed);
  }
}
