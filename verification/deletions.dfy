// What becomes of the pods named in a committed removal: they never come back, not even after they
// are gone, so naming them again in a later update does no harm.
module Deletions {
  import opened MetaSpec
  import opened Protocol
  import opened Ownership
  import opened Replicas
  import opened Resync

  // Given up, or given up once and gone by now.
  ghost predicate Spent(s: State, n: string) {
    n in s.condemned || (InfoOf(s.meta, n).ip != "" && n !in s.loc && n !in s.meta.registry)
  }

  // ---------------------------------------------------------------------------------------------
  // A step files no pod that was nowhere, except one that arrives

  ghost predicate OnlyPlaced(s: State, s2: State) {
    forall n :: n in s2.loc ==> n in s.loc
  }

  lemma BeginOnlyPlaced(s: State, op: int, now: int)
    requires Inv(s) && Enabled(s, Begin(op, now))
    ensures OnlyPlaced(s, Begun(s, op, now))
  {
    if TenantOf(s.meta, s.ops[op].tenant).state == Expected(s.ops[op]) {
      if s.ops[op].kind == Adding {
        MembersAreOnlyIn(s, WARM);
        hide Inv, TakeWarmed;
      } else {
        RemoveBeginMoves(s, op, now);
        hide Inv, Popped, Pop, Swap;
      }
    }
  }

  lemma ReplyOnlyPlaced(s: State, op: int, pod: string, reply: Reply, now: int)
    requires Inv(s) && Enabled(s, Replied(op, pod, reply, now))
    ensures OnlyPlaced(s, RepliedTo(s, op, pod, reply, now))
  {
    HeldWhere(s, pod);
    hide Inv, PutAt, PutWarmed, Correct;
  }

  lemma ScanOnlyPlaced(s: State, pod: string, a: Answer, now: int)
    requires Inv(s) && Enabled(s, ScanAnswered(pod, a, now))
    ensures OnlyPlaced(s, Scanned(s, pod, a, now))
  {
    assert NeedsCorrection(s.meta, pod, a, !s.ready) ==> pod in s.loc;
    hide Inv, Correct;
  }

  lemma PoolOnlyPlaced(s: State, e: Step)
    requires Inv(s) && Enabled(s, e) && (e.DelayOver? || e.ShrinkAsked? || e.ShrinkAnswered?)
    ensures OnlyPlaced(s, Apply(s, e))
  {
    match e
    case DelayOver(pod, _) => HeldWhere(s, pod); hide Inv, PutWarmed;
    case ShrinkAsked(cnt, _) => MembersAreOnlyIn(s, WARM); hide Inv, TakeWarmed;
    case ShrinkAnswered(_, _) =>
      forall n | n in s.warming.chosen ensures n in s.loc { HeldWhere(s, n); }
      hide Inv, PutBack;
  }

  lemma StepOnlyPlaced(s: State, e: Step)
    requires Inv(s) && Enabled(s, e) && !Arrives(s, e)
    ensures OnlyPlaced(s, Apply(s, e))
  {
    hide Inv, Begun, RepliedTo, Scanned, OnlyPlaced;
    match e
    case Begin(op, now) => BeginOnlyPlaced(s, op, now);
    case Replied(op, pod, reply, now) => ReplyOnlyPlaced(s, op, pod, reply, now);
    case ScanAnswered(pod, a, now) => ScanOnlyPlaced(s, pod, a, now);
    case DelayOver(_, _) => PoolOnlyPlaced(s, e);
    case ShrinkAsked(_, _) => PoolOnlyPlaced(s, e);
    case ShrinkAnswered(_, _) => PoolOnlyPlaced(s, e);
    case _ => OthersOnlyPlaced(s, e);
  }

  lemma OthersOnlyPlaced(s: State, e: Step)
    requires Enabled(s, e) && !Arrives(s, e)
    requires !e.Begin? && !e.Replied? && !e.ScanAnswered? && !e.DelayOver? && !e.ShrinkAsked? && !e.ShrinkAnswered?
    ensures OnlyPlaced(s, Apply(s, e))
  {
    hide UndoAll, Swap, Unregister, UpdatePod;
  }

  // ---------------------------------------------------------------------------------------------
  // Registration and condemnation

  // Only an event registers a pod.
  lemma StepRegisters(s: State, e: Step, n: string)
    requires Inv(s) && Enabled(s, e) && n !in s.meta.registry && !(e.PodEvent? && e.pod == n)
    ensures n !in Apply(s, e).meta.registry
  {
    hide Inv, PodsOf, Warmed, Popped, Move, Settle, InHands, Swap, PutAt, PutWarmed, Correct, TakeWarmed, Pop;
    hide UndoAll, PutBack, Unregister, UpdatePod;
    match e
    case PodEvent(pod, ip, now) => UpdateCounts(s.meta, pod, ip, now);
    case PodGone(pod, now) => UnregisterCounts(s.meta, pod, now);
    case ScanAnswered(pod, a, now) => CorrectKeepsCounts(s.meta, pod, a.tenant, a.stime, now);
    case Begin(op, now) => BeginCounts(s, op, now);
    case Replied(op, pod, reply, now) => ReplyCounts(s, op, pod, reply, now);
    case Finish(op, now) => FinishCounts(s, op, now);
    case DelayOver(pod, now) => PutKeepsCounts(s.meta, s.delayed[pod], pod, WARM, 0, now);
    case ShrinkAsked(cnt, now) => TakeKeepsCounts(s.meta, WARM, cnt, now);
    case ShrinkAnswered(_, now) => PutBackKeepsCounts(s.meta, s.warming.chosen, now);
    case _ =>
  }

  // A condemned pod stays condemned until it is gone.
  lemma StaysCondemned(s: State, e: Step, n: string)
    requires Inv(s) && Enabled(s, e) && n in s.condemned
    ensures n in Apply(s, e).condemned ||
            (n !in Apply(s, e).loc && n !in Apply(s, e).meta.registry && InfoOf(Apply(s, e).meta, n).ip != "")
  {
    HeldWhere(s, n);
    if e.PodGone? && e.pod == n {
      UnregisterCounts(s.meta, n, e.now);
      hide Unregister;
    } else {
      hide Inv;
      OthersStayCondemned(s, e, n);
    }
  }

  lemma OthersStayCondemned(s: State, e: Step, n: string)
    requires Enabled(s, e) && n in s.condemned && !(e.PodGone? && e.pod == n)
    ensures n in Apply(s, e).condemned
  {
    hide PodsOf, Warmed, Popped, Move, Settle, InHands, Swap, PutAt, PutWarmed, Correct, TakeWarmed, Pop;
    hide UndoAll, PutBack, Unregister, UpdatePod;
    match e
    case Begin(op, now) => BeginCounts(s, op, now);
    case Replied(op, pod, reply, now) => ReplyCounts(s, op, pod, reply, now);
    case Finish(op, now) => FinishCounts(s, op, now);
    case _ =>
  }

  lemma StaysSpent(s: State, e: Step, n: string)
    requires Inv(s) && Enabled(s, e) && Spent(s, n)
    ensures Spent(Apply(s, e), n)
  {
    if n in s.condemned {
      StaysCondemned(s, e, n);
    } else {
      GoneIsGone(s, e, n);
      StepRegisters(s, e, n);
      AddressStays(s, e, n);
      hide Inv, Apply;
      if !Arrives(s, e) { StepOnlyPlaced(s, e); }
    }
  }

  lemma GoneIsGone(s: State, e: Step, n: string)
    requires Enabled(s, e) && InfoOf(s.meta, n).ip != "" && n !in s.loc && n !in s.meta.registry
    ensures !(e.PodEvent? && e.pod == n)
    ensures Arrives(s, e) ==> n !in Apply(s, e).loc
  {
  }

  lemma {:induction false} StaysSpentOverRuns(s: State, steps: seq<Step>, trace: seq<State>, j: nat, k: nat, n: string)
    requires Inv(s) && IsRun(s, steps, trace) && j <= k <= |steps| && Spent(trace[j], n)
    ensures Spent(trace[k], n)
  {
    hide Inv, Apply, Spent;
    if j < k {
      StaysSpentOverRuns(s, steps, trace, j, k - 1, n);
      RunKeeps(s, steps, trace, k - 1);
      StaysSpent(trace[k - 1], steps[k - 1], n);
    }
  }

  lemma SpentIsNowhere(s: State, n: string, t: string)
    requires Inv(s) && Spent(s, n)
    ensures n !in PodsOf(s.meta, t)
  {
    HeldWhere(s, n);
    if n in PodsOf(s.meta, t) { ListedMeansLocated(s, n, t); }
  }

  // From the moment a removal that names it is committed, and for the rest of the run, a pod is in no
  // container; so no deletion list made of such names can hit a pod of the pool or of a tenant.
  lemma DeletionsAreSafe(mode: RunMode, softLimit: nat, steps: seq<Step>, trace: seq<State>, j: nat, k: nat,
                         n: string, t: string)
    requires IsRun(Start(mode, softLimit), steps, trace) && j <= k <= |steps| && n in trace[j].condemned
    ensures n !in PodsOf(trace[k].meta, t)
  {
    StartHolds(mode, softLimit);
    RunKeeps(Start(mode, softLimit), steps, trace, k);
    StaysSpentOverRuns(Start(mode, softLimit), steps, trace, j, k, n);
    SpentIsNowhere(trace[k], n, t);
  }
}
