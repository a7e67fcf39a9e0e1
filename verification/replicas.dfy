// The CloneSet's replica count against the pods the controller knows about.
module Replicas {
  import opened NameLists
  import opened MetaSpec
  import opened Protocol
  import opened Ownership

  // Registered pods with an address that no committed update has given up.
  ghost function Live(s: State): set<string> {
    set n | n in s.meta.registry && InfoOf(s.meta, n).ip != "" && n !in s.condemned
  }

  // Pods asked for in an update that has not been answered; they are already counted as pending.
  function Asked(s: State): int {
    if s.warming.Growing? then s.warming.delta else 0
  }

  // Replicas that are neither pending nor live.
  ghost function Drift(s: State): int {
    s.replicas + Asked(s) - s.meta.pool.pending - |Live(s)|
  }

  // ---------------------------------------------------------------------------------------------
  // Bookkeeping that leaves both counts alone

  ghost predicate CountsKept(m: Meta, m2: Meta) {
    && m2.registry == m.registry
    && m2.pool.pending == m.pool.pending
    && forall n :: InfoOf(m2, n).ip == InfoOf(m, n).ip
  }

  lemma PutKeepsCounts(m: Meta, from: string, pod: string, t: string, stime: int, now: int)
    ensures CountsKept(m, Put(m, pod, t)) && CountsKept(m, PutAt(m, pod, t, stime))
    ensures CountsKept(m, PutWarmed(m, from, pod, false, now))
    ensures CountsKept(m, TakeOut(m, pod, t, now))
  {
    hide Append, Without;
  }

  lemma TakeKeepsCounts(m: Meta, t: string, cnt: nat, now: int)
    ensures CountsKept(m, TakeWarmed(m, t, cnt, now))
    ensures CountsKept(m, Pop(m, t, cnt, now))
    ensures CountsKept(m, Swap(m, t, Pausing, Paused)) && CountsKept(m, Swap(m, t, Resuming, Resumed))
  {
    hide Reverse, NoDup;
  }

  lemma CorrectKeepsCounts(m: Meta, pod: string, t: string, stime: int, now: int)
    ensures CountsKept(m, Correct(m, pod, t, stime, now))
  {
    var owner := InfoOf(m, pod).tenant;
    PutKeepsCounts(m, WARM, pod, owner, stime, now);
    var out := if owner != t && (owner == WARM || owner in m.tenants) then TakeOut(m, pod, owner, now) else m;
    PutKeepsCounts(out, WARM, pod, t, stime, now);
    PutKeepsCounts(WithState(out, t, Resumed), WARM, pod, t, stime, now);
    hide TakeOut, PutAt;
  }

  lemma {:induction false} UndoKeepsCounts(m: Meta, o: Op, undo: seq<string>, now: int)
    ensures CountsKept(m, UndoAll(m, o, undo, now))
  {
    if undo != [] {
      UndoKeepsCounts(m, o, undo[..|undo| - 1], now);
      PutKeepsCounts(UndoAll(m, o, undo[..|undo| - 1], now), o.tenant, undo[|undo| - 1], o.tenant, 0, now);
      hide PutWarmed, Put;
    }
  }

  lemma {:induction false} PutBackKeepsCounts(m: Meta, pods: seq<string>, now: int)
    ensures CountsKept(m, PutBack(m, pods, now))
  {
    if pods != [] {
      PutBackKeepsCounts(m, pods[..|pods| - 1], now);
      PutKeepsCounts(PutBack(m, pods[..|pods| - 1], now), WARM, pods[|pods| - 1], WARM, 0, now);
      hide PutWarmed;
    }
  }

  // ---------------------------------------------------------------------------------------------
  // How each step moves the drift

  predicate Arrives(s: State, e: Step) {
    e.PodEvent? && e.ip != "" && (e.pod !in s.meta.registry || InfoOf(s.meta, e.pod).ip == "")
  }

  // Chosen pods that were deleted before their update was committed.
  ghost function LostChosen(s: State): set<string> {
    if s.warming.Shrinking? then set n | n in s.warming.chosen && n !in s.meta.registry else {}
  }

  // An unexpected death leaves a replica unaccounted for; an arrival nobody waits for accounts for
  // one; a committed shrink writes off the chosen pods that had already died.
  ghost function DriftChange(s: State, e: Step): int {
    match e
    case PodGone(pod, _) => if pod in Live(s) then 1 else 0
    case PodEvent(_, _, _) => if Arrives(s, e) && s.meta.pool.pending <= 0 then -1 else 0
    case ShrinkAnswered(committed, _) => if committed then -|LostChosen(s)| else 0
    case _ => 0
  }

  lemma SameCounts(s: State, s2: State)
    requires CountsKept(s.meta, s2.meta) && s2.condemned == s.condemned
    ensures Live(s2) == Live(s) && s2.meta.pool.pending == s.meta.pool.pending
  {
  }

  lemma UpdateCounts(m: Meta, pod: string, ip: string, now: int)
    ensures var m2 := UpdatePod(m, pod, ip, now);
            && m2.registry == m.registry + {pod}
            && InfoOf(m2, pod).ip == (if pod in m.registry && ip == "" then InfoOf(m, pod).ip else ip)
            && (forall n :: n != pod ==> InfoOf(m2, n).ip == InfoOf(m, n).ip)
            && m2.pool.pending == m.pool.pending -
                 if ip != "" && (pod !in m.registry || InfoOf(m, pod).ip == "") && m.pool.pending > 0 then 1 else 0
  {
    hide Append;
  }

  // A pod that was not live becomes live, taking a pending place if there is one.
  lemma LiveWith(s: State, s2: State, pod: string)
    requires pod !in Live(s) && pod !in s.condemned && InfoOf(s2.meta, pod).ip != ""
    requires s2.meta.registry == s.meta.registry + {pod} && s2.condemned == s.condemned
    requires forall n :: n != pod ==> InfoOf(s2.meta, n).ip == InfoOf(s.meta, n).ip
    ensures |Live(s2)| == |Live(s)| + 1
  {
    assert Live(s2) == Live(s) + {pod};
  }

  lemma LiveWithout(s: State, s2: State, pod: string)
    requires s2.meta.registry == s.meta.registry - {pod}
    requires forall n :: n != pod ==> (n in s2.condemned <==> n in s.condemned)
    requires forall n :: InfoOf(s2.meta, n).ip == InfoOf(s.meta, n).ip
    ensures |Live(s2)| == |Live(s)| - if pod in Live(s) then 1 else 0
  {
    assert Live(s2) == Live(s) - {pod};
  }

  lemma EventDrift(s: State, pod: string, ip: string, now: int)
    requires Arrives(s, PodEvent(pod, ip, now)) ==> pod !in Live(s) && pod !in s.condemned
    ensures Drift(Evented(s, pod, ip, now)) == Drift(s) + DriftChange(s, PodEvent(pod, ip, now))
  {
    hide UpdatePod, Live;
    var s2 := Evented(s, pod, ip, now);
    UpdateCounts(s.meta, pod, ip, now);
    if Arrives(s, PodEvent(pod, ip, now)) {
      LiveWith(s, s2, pod);
    } else {
      SameLive(s, s2, pod);
    }
  }

  lemma SameLive(s: State, s2: State, pod: string)
    requires s2.meta.registry == s.meta.registry + {pod} && s2.condemned == s.condemned
    requires forall n :: n != pod ==> InfoOf(s2.meta, n).ip == InfoOf(s.meta, n).ip
    requires if pod in s.meta.registry then (InfoOf(s2.meta, pod).ip == "" <==> InfoOf(s.meta, pod).ip == "")
             else InfoOf(s2.meta, pod).ip == ""
    ensures Live(s2) == Live(s)
  {
  }

  lemma ArrivalIsNew(s: State, pod: string, ip: string, now: int)
    requires Inv(s) && Enabled(s, PodEvent(pod, ip, now)) && Arrives(s, PodEvent(pod, ip, now))
    ensures pod !in s.condemned && pod !in Live(s)
  {
    HeldWhere(s, pod);
  }

  lemma UnregisterCounts(m: Meta, pod: string, now: int)
    ensures var m2 := Unregister(m, pod, now);
            && m2.registry == m.registry - {pod} && m2.pool.pending == m.pool.pending
            && (forall n :: InfoOf(m2, n).ip == InfoOf(m, n).ip)
  {
    PutKeepsCounts(m, WARM, pod, InfoOf(m, pod).tenant, 0, now);
    hide TakeOut;
  }

  lemma GoneDrift(s: State, pod: string, now: int)
    ensures Drift(Gone(s, pod, now)) == Drift(s) + DriftChange(s, PodGone(pod, now))
  {
    hide Unregister, InHands, Live;
    if pod in s.meta.registry {
      UnregisterCounts(s.meta, pod, now);
      LiveWithout(s, Gone(s, pod, now), pod);
    } else {
      NotLive(s, pod);
    }
  }

  lemma NotLive(s: State, pod: string)
    requires pod !in s.meta.registry
    ensures pod !in Live(s)
  {
  }

  lemma ShrinkDrift(s: State)
    requires Inv(s) && s.warming.Shrinking?
    ensures Drift(GivenUp(s)) == Drift(s) - |LostChosen(s)|
  {
    ShrinkFacts(s);
    hide Inv, NoDup, Live, LostChosen, Move;
    var chosen := ToSet(s.warming.chosen);
    ChosenLeave(s, GivenUp(s), chosen, chosen - LostChosen(s));
  }

  lemma ShrinkFacts(s: State)
    requires Inv(s) && s.warming.Shrinking?
    ensures var chosen := ToSet(s.warming.chosen);
            && |s.warming.chosen| == |chosen| == |chosen - LostChosen(s)| + |LostChosen(s)|
            && LostChosen(s) <= chosen && chosen - LostChosen(s) <= Live(s)
            && forall n :: n in chosen - (chosen - LostChosen(s)) ==> n !in s.meta.registry
  {
    SetOfDistinct(s.warming.chosen);
    forall n | n in s.warming.chosen ensures n in s.meta.registry ==> n in Live(s) { HeldWhere(s, n); }
    var chosen := ToSet(s.warming.chosen);
    assert chosen == (chosen - LostChosen(s)) + LostChosen(s);
  }

  lemma ChosenLeave(s: State, s2: State, chosen: set<string>, known: set<string>)
    requires s2.meta == s.meta && s2.condemned == s.condemned + chosen && known <= chosen && known <= Live(s)
    requires forall n :: n in chosen - known ==> n !in s.meta.registry
    ensures |Live(s2)| == |Live(s)| - |known|
  {
    assert Live(s2) == Live(s) - known;
  }

  lemma StepDrift(s: State, e: Step)
    requires Inv(s) && Enabled(s, e)
    ensures Drift(Apply(s, e)) == Drift(s) + DriftChange(s, e)
  {
    hide Inv, PodsOf, Warmed, Popped, Move, Settle, InHands, Swap, PutAt, PutWarmed, Correct, TakeWarmed, Pop;
    hide UndoAll, PutBack, Unregister, UpdatePod;
    var s2 := Apply(s, e);
    match e
    case PodEvent(pod, ip, now) =>
      if Arrives(s, e) { ArrivalIsNew(s, pod, ip, now); }
      EventDrift(s, pod, ip, now);
    case PodGone(pod, now) => GoneDrift(s, pod, now);
    case ScanAnswered(pod, a, now) =>
      CorrectKeepsCounts(s.meta, pod, a.tenant, a.stime, now);
      SameCounts(s, s2);
    case Begin(op, now) =>
      BeginCounts(s, op, now);
      SameCounts(s, s2);
    case Replied(op, pod, reply, now) =>
      ReplyCounts(s, op, pod, reply, now);
      SameCounts(s, s2);
    case Finish(op, now) =>
      FinishCounts(s, op, now);
      SameCounts(s, s2);
    case DelayOver(pod, now) =>
      PutKeepsCounts(s.meta, s.delayed[pod], pod, WARM, 0, now);
      SameCounts(s, s2);
    case ShrinkAsked(cnt, now) =>
      TakeKeepsCounts(s.meta, WARM, cnt, now);
      SameCounts(s, s2);
    case ShrinkAnswered(committed, now) =>
      if committed { ShrinkDrift(s); } else {
        PutBackKeepsCounts(s.meta, s.warming.chosen, now);
        SameCounts(s, s2);
      }
    case _ => OtherDrift(s, e);
  }

  lemma OtherDrift(s: State, e: Step)
    requires Enabled(s, e)
    requires e.SetupTenant? || e.BecomeReady? || e.AskPause? || e.AskResume? || e.AskResize? || e.GrowAsked? ||
             e.GrowAnswered?
    ensures Drift(Apply(s, e)) == Drift(s)
  {
    assert Live(Apply(s, e)) == Live(s);
  }

  lemma BeginCounts(s: State, op: int, now: int)
    requires op in s.ops
    ensures CountsKept(s.meta, Begun(s, op, now).meta) && Begun(s, op, now).condemned == s.condemned
    ensures Begun(s, op, now).warming == s.warming && Begun(s, op, now).replicas == s.replicas
  {
    hide CountsKept, TakeWarmed, Pop, Swap, Move, Warmed, Popped, TenantOf, Expected, PodsOf;
    var o := s.ops[op];
    SameIsKept(s.meta);
    TakeKeepsCounts(s.meta, o.tenant, o.want, now);
    var cnt := if o.lifecycle then |PodsOf(s.meta, o.tenant)| else o.want;
    TakeKeepsCounts(s.meta, o.tenant, cnt, now);
    TakeKeepsCounts(Pop(s.meta, o.tenant, cnt, now), o.tenant, 0, now);
    KeptTwice(s.meta, Pop(s.meta, o.tenant, cnt, now),
              Swap(Pop(s.meta, o.tenant, cnt, now), o.tenant, Pausing, Paused));
  }

  lemma SameIsKept(m: Meta)
    ensures CountsKept(m, m)
  {
  }

  lemma KeptTwice(m: Meta, m1: Meta, m2: Meta)
    requires CountsKept(m, m1) && CountsKept(m1, m2)
    ensures CountsKept(m, m2)
  {
  }

  lemma ReplyCounts(s: State, op: int, pod: string, reply: Reply, now: int)
    requires op in s.ops
    ensures var s2 := RepliedTo(s, op, pod, reply, now);
            CountsKept(s.meta, s2.meta) && s2.condemned == s.condemned && s2.warming == s.warming &&
            s2.replicas == s.replicas
  {
    var o := s.ops[op];
    match reply
    case Ok(stime) => PutKeepsCounts(s.meta, o.tenant, pod, o.tenant, stime, now); hide PutAt, PutWarmed;
    case GrpcError =>
    case AppError(t, stime, _) => CorrectKeepsCounts(s.meta, pod, t, stime, now); hide Correct;
  }

  lemma FinishCounts(s: State, op: int, now: int)
    requires op in s.ops
    ensures var s2 := Finished(s, op, now);
            CountsKept(s.meta, s2.meta) && s2.condemned == s.condemned && s2.warming == s.warming &&
            s2.replicas == s.replicas
  {
    var o := s.ops[op];
    UndoKeepsCounts(s.meta, o, o.undo, now);
    TakeKeepsCounts(UndoAll(s.meta, o, o.undo, now), o.tenant, 0, now);
    hide UndoAll, Swap, Settle;
  }

  // ---------------------------------------------------------------------------------------------
  // Orderly runs

  // Kubernetes deletes only pods the controller gave up (or that never got an address), and gives a
  // pod its first address only while fewer pods than replicas are live.
  ghost predicate Orderly(s: State, e: Step) {
    && (e.PodGone? ==> e.pod !in Live(s))
    && (Arrives(s, e) ==> |Live(s)| < s.replicas)
  }

  ghost predicate Balanced(s: State) {
    s.replicas + Asked(s) == s.meta.pool.pending + |Live(s)| && s.ghosts == {}
  }

  lemma OrderlyStep(s: State, e: Step)
    requires Inv(s) && Enabled(s, e) && Balanced(s) && Orderly(s, e)
    ensures Balanced(Apply(s, e))
    ensures Arrives(s, e) ==> s.meta.pool.pending > 0
  {
    StepDrift(s, e);
    if e.PodGone? { HeldWhere(s, e.pod); }
    if e.ShrinkAnswered? {
      forall n | n in s.warming.chosen ensures n in s.meta.registry { HeldWhere(s, n); }
      assert LostChosen(s) == {};
    }
    NoNewGhosts(s, e);
    hide Apply, Inv;
  }

  lemma NoNewGhosts(s: State, e: Step)
    requires Inv(s) && Enabled(s, e) && s.ghosts == {} && (e.PodGone? ==> e.pod !in Live(s))
    ensures Apply(s, e).ghosts == {}
  {
    if Apply(s, e).ghosts != {} {
      var n :| n in Apply(s, e).ghosts;
      GhostsWereInHands(s, e, n);
      hide Apply;
      HeldWhere(s, n);
      assert false;
    }
  }

  // Along every orderly run from a fresh CloneSet, replicas (with the update under way) are exactly
  // the pending pods plus the live ones, and every arrival finds a pending pod to settle.
  lemma {:induction false} ReplicasAreConserved(mode: RunMode, softLimit: nat, steps: seq<Step>, trace: seq<State>,
                                                k: nat)
    requires IsRun(Start(mode, softLimit), steps, trace) && k <= |steps|
    requires forall i :: 0 <= i < k ==> Orderly(trace[i], steps[i])
    ensures Balanced(trace[k])
    ensures k < |steps| && Orderly(trace[k], steps[k]) && Arrives(trace[k], steps[k]) ==> trace[k].meta.pool.pending > 0
  {
    hide Inv, Apply, Balanced, Orderly;
    StartHolds(mode, softLimit);
    RunKeeps(Start(mode, softLimit), steps, trace, k);
    if k == 0 {
      FreshIsBalanced(mode, softLimit);
    } else {
      ReplicasAreConserved(mode, softLimit, steps, trace, k - 1);
      RunKeeps(Start(mode, softLimit), steps, trace, k - 1);
      OrderlyStep(trace[k - 1], steps[k - 1]);
    }
    if k < |steps| && Orderly(trace[k], steps[k]) { OrderlyStep(trace[k], steps[k]); }
  }

  lemma FreshIsBalanced(mode: RunMode, softLimit: nat)
    ensures Balanced(Start(mode, softLimit))
  {
    assert Live(Start(mode, softLimit)) == {};
  }
}
