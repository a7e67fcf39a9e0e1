// Tenant states over every run: a tenant never gets stuck in Pausing or Resuming.
module Lifecycle {
  import opened NameLists
  import opened MetaSpec
  import opened Protocol
  import opened Ownership

  function StateOf(s: State, t: string): TenantState {
    TenantOf(s.meta, t).state
  }

  // A pause that has not reached its critical section.
  ghost predicate PauseWaits(s: State, t: string) {
    exists op :: op in s.ops && s.ops[op].kind == Removing && s.ops[op].lifecycle && s.ops[op].tenant == t &&
                 s.ops[op].phase == Queued
  }

  // A resume that has not returned.
  ghost predicate ResumeLives(s: State, t: string) {
    exists op :: op in s.ops && s.ops[op].kind == Adding && s.ops[op].lifecycle && s.ops[op].tenant == t
  }

  ghost predicate NoOrphans(s: State) {
    forall t :: (StateOf(s, t) == Pausing ==> PauseWaits(s, t)) && (StateOf(s, t) == Resuming ==> ResumeLives(s, t))
  }

  // ---------------------------------------------------------------------------------------------
  // Moving pods changes no state

  ghost predicate StatesKept(m: Meta, m2: Meta) {
    forall t :: TenantOf(m2, t).state == TenantOf(m, t).state
  }

  lemma {:induction false} UndoKeepsStates(m: Meta, o: Op, undo: seq<string>, now: int)
    ensures StatesKept(m, UndoAll(m, o, undo, now))
  {
    if undo != [] { UndoKeepsStates(m, o, undo[..|undo| - 1], now); }
  }

  lemma {:induction false} PutBackKeepsStates(m: Meta, pods: seq<string>, now: int)
    ensures StatesKept(m, PutBack(m, pods, now))
  {
    if pods != [] { PutBackKeepsStates(m, pods[..|pods| - 1], now); }
  }

  lemma CorrectStates(m: Meta, pod: string, t: string, stime: int, now: int)
    ensures forall u :: TenantOf(Correct(m, pod, t, stime, now), u).state ==
                          if u == t && t != WARM && HasTarget(m, t) then Resumed else TenantOf(m, u).state
  {
    hide Append, Without;
  }

  // ---------------------------------------------------------------------------------------------
  // The edges

  // A correction that forces tenant t to Resumed.
  predicate Forces(s: State, e: Step, t: string) {
    || (e.ScanAnswered? && e.answer.tenant == t)
    || (e.Replied? && e.reply.AppError? && e.reply.tenant == t)
  }

  predicate IsPauseStart(s: State, e: Step, t: string) {
    e.AskPause? && e.tenant == t
  }

  predicate IsPauseCommit(s: State, e: Step, t: string) {
    e.Begin? && e.op in s.ops && s.ops[e.op].kind == Removing && s.ops[e.op].lifecycle && s.ops[e.op].tenant == t
  }

  predicate IsResumeStart(s: State, e: Step, t: string) {
    e.AskResume? && e.tenant == t
  }

  predicate IsResumeEnd(s: State, e: Step, t: string) {
    e.Finish? && e.op in s.ops && s.ops[e.op].kind == Adding && s.ops[e.op].lifecycle && s.ops[e.op].tenant == t
  }

  // Which step may change a known tenant's state, and to what.
  ghost predicate Edge(s: State, e: Step, t: string)
    requires Enabled(s, e)
  {
    var a, b := StateOf(s, t), StateOf(Apply(s, e), t);
    || a == b
    || (a == Resumed && b == Pausing && IsPauseStart(s, e, t))
    || (a == Pausing && b == Paused && IsPauseCommit(s, e, t))
    || (a == Paused && b == Resuming && IsResumeStart(s, e, t))
    || (a == Resuming && b == Resumed && IsResumeEnd(s, e, t))
    || (b == Resumed && Forces(s, e, t))
  }

  lemma BeginStates(s: State, op: int, now: int, t: string)
    requires Enabled(s, Begin(op, now)) && s.ops[op].tenant in s.meta.tenants
    ensures var o := s.ops[op];
            StateOf(Begun(s, op, now), t) ==
              if t == o.tenant && o.kind == Removing && o.lifecycle && StateOf(s, t) == Pausing then Paused
                else StateOf(s, t)
  {
    hide Reverse, Popped, Warmed, Move;
  }

  lemma FinishStates(s: State, op: int, now: int, t: string)
    requires Enabled(s, Finish(op, now))
    ensures var o := s.ops[op];
            StateOf(Finished(s, op, now), t) ==
              if t == o.tenant && o.kind == Adding && o.lifecycle && StateOf(s, t) == Resuming then Resumed
                else StateOf(s, t)
  {
    UndoKeepsStates(s.meta, s.ops[op], s.ops[op].undo, now);
    hide UndoAll, Settle;
  }

  lemma ReplyStates(s: State, op: int, pod: string, reply: Reply, now: int, t: string)
    requires Enabled(s, Replied(op, pod, reply, now)) && WARM !in s.meta.tenants
    ensures StateOf(RepliedTo(s, op, pod, reply, now), t) ==
              if reply.AppError? && !reply.isUnassigning && reply.tenant == t && MayServe(s.meta, t) then Resumed
              else StateOf(s, t)
  {
    if reply.AppError? {
      CorrectStates(s.meta, pod, reply.tenant, reply.stime, now);
      hide Correct;
    } else {
      hide Append;
    }
  }

  ghost predicate OpsKnown(s: State) {
    WARM !in s.meta.tenants && forall op :: op in s.ops ==> s.ops[op].tenant in s.meta.tenants
  }

  lemma PoolStates(m: Meta, from: string, pod: string, isNew: bool, now: int)
    ensures StatesKept(m, PutWarmed(m, from, pod, isNew, now))
  {
    hide Append;
  }

  lemma EventStates(s: State, pod: string, ip: string, now: int)
    ensures StatesKept(s.meta, Evented(s, pod, ip, now).meta)
  {
    hide Append;
  }

  lemma TakeOutStates(m: Meta, pod: string, t: string, now: int)
    ensures StatesKept(m, TakeOut(m, pod, t, now))
  {
    hide Without;
  }

  lemma GoneStates(s: State, pod: string, now: int)
    ensures StatesKept(s.meta, Gone(s, pod, now).meta)
  {
    TakeOutStates(s.meta, pod, InfoOf(s.meta, pod).tenant, now);
    hide TakeOut, InHands;
  }

  lemma TakeStates(m: Meta, t: string, cnt: nat, now: int)
    ensures StatesKept(m, TakeWarmed(m, t, cnt, now))
  {
  }

  // A tenant that exists or may be registered on the fly.
  predicate MayServe(m: Meta, t: string) {
    t != "" && (t in m.tenants || m.mode == LocalMode || m.mode == ServerlessMode)
  }

  // The answer says something else than the books about a pod that a tenant holds, or at startup any pod.
  predicate Corrects(s: State, pod: string, a: Answer) {
    var i := InfoOf(s.meta, pod);
    !a.isUnassigning && (i.tenant != "" || !s.ready) && !(i.tenant == a.tenant && i.stime == a.stime)
  }

  // The state of tenant t after a step.
  ghost predicate Expects(s: State, e: Step, t: string, st: TenantState) {
    var a := StateOf(s, t);
    match e
    case SetupTenant(u, initial) => st == if t == u && u !in s.meta.tenants then initial else a
    case AskPause(u, _) => st == if t == u && u in s.meta.tenants && a == Resumed then Pausing else a
    case AskResume(u, _, _) => st == if t == u && u in s.meta.tenants && a == Paused then Resuming else a
    case Begin(op, _) =>
      op in s.ops && st == if IsPauseCommit(s, e, t) && a == Pausing then Paused else a
    case Finish(op, _) =>
      op in s.ops && st == if IsResumeEnd(s, e, t) && a == Resuming then Resumed else a
    case Replied(_, _, reply, _) =>
      st == if reply.AppError? && !reply.isUnassigning && reply.tenant == t && MayServe(s.meta, t) then Resumed else a
    case ScanAnswered(pod, answer, _) =>
      st == if Corrects(s, pod, answer) && answer.tenant == t && MayServe(s.meta, t) then Resumed else a
    case _ => st == a
  }

  lemma StepStates(s: State, e: Step, t: string)
    requires OpsKnown(s) && Enabled(s, e)
    ensures Expects(s, e, t, StateOf(Apply(s, e), t))
  {
    hide Begun, Finished, RepliedTo, Correct, PutBack, PutWarmed, Evented, Gone, TakeWarmed, Warmed, Move;
    match e
    case Begin(op, now) => BeginStates(s, op, now, t);
    case Finish(op, now) => FinishStates(s, op, now, t);
    case Replied(op, pod, reply, now) => ReplyStates(s, op, pod, reply, now, t);
    case ScanAnswered(pod, a, now) => CorrectStates(s.meta, pod, a.tenant, a.stime, now);
    case ShrinkAnswered(_, now) => PutBackKeepsStates(s.meta, s.warming.chosen, now);
    case ShrinkAsked(cnt, now) => TakeStates(s.meta, WARM, cnt, now);
    case PodGone(pod, now) => GoneStates(s, pod, now);
    case PodEvent(pod, ip, now) => EventStates(s, pod, ip, now);
    case DelayOver(pod, now) => PoolStates(s.meta, s.delayed[pod], pod, false, now);
    case _ =>
  }

  // The cycle resumed -> pausing -> paused -> resuming -> resumed, with corrections as its only
  // shortcut, always into Resumed.
  lemma StepsFollowTheCycle(s: State, e: Step, t: string)
    requires OpsKnown(s) && Enabled(s, e) && t in s.meta.tenants
    ensures Edge(s, e, t)
  {
    hide Apply;
    StepStates(s, e, t);
  }

  // ---------------------------------------------------------------------------------------------
  // Live operations

  lemma NewWaits(s: State, s2: State, op: int, t: string)
    requires op in s2.ops && s2.ops[op].tenant == t && s2.ops[op].lifecycle
    ensures s2.ops[op].kind == Removing && s2.ops[op].phase == Queued ==> PauseWaits(s2, t)
    ensures s2.ops[op].kind == Adding ==> ResumeLives(s2, t)
  {
  }

  // Only asking, beginning, replying and finishing touch the operations.
  lemma OthersKeepOps(s: State, e: Step)
    requires Enabled(s, e)
    requires !(e.AskPause? || e.AskResume? || e.AskResize? || e.Begin? || e.Replied? || e.Finish?)
    ensures Apply(s, e).ops == s.ops
  {
    hide Correct, PutBack, PutWarmed, Unregister, TakeWarmed, Warmed, Move, UpdatePod, Setup, InHands;
  }

  ghost predicate Survives(ops: map<int, Op>, ops2: map<int, Op>, op: int, begins: bool)
    requires op in ops
  {
    && op in ops2 && ops2[op].kind == ops[op].kind && ops2[op].lifecycle == ops[op].lifecycle
    && ops2[op].tenant == ops[op].tenant && (!begins ==> ops2[op].phase == ops[op].phase)
  }

  // What a step does to an operation it does not end.
  lemma OpSurvives(s: State, e: Step, op: int)
    requires Enabled(s, e) && op in s.ops
    requires e.Finish? ==> e.op != op
    requires e.Begin? && e.op == op ==> StateOf(s, s.ops[op].tenant) == Expected(s.ops[op])
    ensures Survives(s.ops, Apply(s, e).ops, op, e == Begin(op, if e.Begin? then e.now else 0))
  {
    hide Apply, Expected, StateOf;
    match e
    case AskPause(_, _) => AskKeepsOps(s, e);
    case AskResume(_, _, _) => AskKeepsOps(s, e);
    case AskResize(_, _, _, _) => AskKeepsOps(s, e);
    case Begin(o, now) => BeginKeepsOps(s, o, now);
    case Replied(o, pod, reply, now) => ReplyKeepsOps(s, o, pod, reply, now);
    case Finish(o, now) => FinishKeepsOps(s, o, now);
    case _ => OthersKeepOps(s, e);
  }

  lemma AskKeepsOps(s: State, e: Step)
    requires Enabled(s, e) && (e.AskPause? || e.AskResume? || e.AskResize?)
    ensures forall op :: op in s.ops ==> op in Apply(s, e).ops && Apply(s, e).ops[op] == s.ops[op]
  {
  }

  lemma ReplyKeepsOps(s: State, op: int, pod: string, reply: Reply, now: int)
    requires Enabled(s, Replied(op, pod, reply, now))
    ensures exists outcome :: Apply(s, Replied(op, pod, reply, now)).ops == s.ops[op := s.ops[op].Result(pod, outcome)]
  {
    hide PutAt, PutWarmed, Correct;
    var outcome := if reply.Ok? then Committed else if reply.GrpcError? then Undone
                   else if reply.isUnassigning then Delayed else Corrected;
    assert RepliedTo(s, op, pod, reply, now).ops == s.ops[op := s.ops[op].Result(pod, outcome)];
  }

  lemma FinishKeepsOps(s: State, op: int, now: int)
    requires Enabled(s, Finish(op, now))
    ensures Apply(s, Finish(op, now)).ops == s.ops - {op}
  {
    hide UndoAll, Settle, Swap;
  }

  lemma BeginKeepsOps(s: State, op: int, now: int)
    requires op in s.ops
    ensures Enabled(s, Begin(op, now)) ==> Apply(s, Begin(op, now)).ops == Begun(s, op, now).ops
    ensures var ops, o := Begun(s, op, now).ops, s.ops[op];
            if StateOf(s, o.tenant) == Expected(o)
            then ops == s.ops[op := o.(phase := Running, want := ops[op].want, taken := ops[op].taken)]
            else ops == s.ops - {op}
  {
    hide TakeWarmed, Warmed, Move, Pop, Popped, Swap, Expected, PodsOf;
  }

  lemma NoOrphansKept(s: State, e: Step)
    requires NoOrphans(s) && OpsKnown(s) && Enabled(s, e)
    ensures NoOrphans(Apply(s, e))
  {
    var s2 := Apply(s, e);
    forall t
      ensures StateOf(s2, t) == Pausing ==> PauseWaits(s2, t)
      ensures StateOf(s2, t) == Resuming ==> ResumeLives(s2, t)
    {
      StepStates(s, e, t);
      hide Apply;
      if StateOf(s2, t) == Pausing { StillPausing(s, e, t); }
      if StateOf(s2, t) == Resuming { StillResuming(s, e, t); }
    }
  }

  lemma StillPausing(s: State, e: Step, t: string)
    requires NoOrphans(s) && OpsKnown(s) && Enabled(s, e) && StateOf(Apply(s, e), t) == Pausing
    ensures PauseWaits(Apply(s, e), t)
  {
    StepStates(s, e, t);
    if StateOf(s, t) == Pausing {
      var op :| op in s.ops && s.ops[op].kind == Removing && s.ops[op].lifecycle && s.ops[op].tenant == t &&
                s.ops[op].phase == Queued;
      OpSurvives(s, e, op);
      NewWaits(s, Apply(s, e), op, t);
    } else {
      LaunchedBy(s, e, t);
    }
  }

  lemma StillResuming(s: State, e: Step, t: string)
    requires NoOrphans(s) && OpsKnown(s) && Enabled(s, e) && StateOf(Apply(s, e), t) == Resuming
    ensures ResumeLives(Apply(s, e), t)
  {
    StepStates(s, e, t);
    if StateOf(s, t) == Resuming {
      var op :| op in s.ops && s.ops[op].kind == Adding && s.ops[op].lifecycle && s.ops[op].tenant == t;
      OpSurvives(s, e, op);
      NewWaits(s, Apply(s, e), op, t);
    } else {
      LaunchedBy(s, e, t);
    }
  }

  lemma LaunchedBy(s: State, e: Step, t: string)
    requires Enabled(s, e) && t in s.meta.tenants
    ensures e.AskPause? && e.tenant == t && StateOf(s, t) == Resumed ==> PauseWaits(Apply(s, e), t)
    ensures e.AskResume? && e.tenant == t && StateOf(s, t) == Paused ==> ResumeLives(Apply(s, e), t)
  {
    if (e.AskPause? && e.tenant == t && StateOf(s, t) == Resumed) ||
       (e.AskResume? && e.tenant == t && StateOf(s, t) == Paused) {
      NewWaits(s, Apply(s, e), e.op, t);
    }
  }

  // ---------------------------------------------------------------------------------------------
  // Every run

  // In every state of every run, a tenant in Pausing has a pause that has not reached its critical
  // section, and a tenant in Resuming has a resume that has not returned.
  lemma {:induction false} NeverStuck(mode: RunMode, softLimit: nat, steps: seq<Step>, trace: seq<State>, k: nat)
    requires IsRun(Start(mode, softLimit), steps, trace) && k <= |steps|
    ensures NoOrphans(trace[k])
  {
    hide Inv, NoOrphans, Apply;
    if k == 0 {
      NobodyWaitsAtStart(mode, softLimit);
    } else {
      NeverStuck(mode, softLimit, steps, trace, k - 1);
      StartHolds(mode, softLimit);
      RunKeeps(Start(mode, softLimit), steps, trace, k - 1);
      InvKnowsOps(trace[k - 1]);
      NoOrphansKept(trace[k - 1], steps[k - 1]);
    }
  }

  // Operation op is a resume of t that leads out of Resuming: while it waits, its critical section goes
  // ahead and leaves t alone; once it runs, its end makes t Resumed.
  ghost predicate LeavesResuming(s: State, t: string, op: int) {
    && op in s.ops && s.ops[op].kind == Adding && s.ops[op].lifecycle && s.ops[op].tenant == t
    && (s.ops[op].phase == Queued ==> forall now :: GoesAhead(s, t, op, now))
    && (s.ops[op].phase == Running ==> forall now :: StateOf(Finished(s, op, now), t) == Resumed)
  }

  ghost predicate GoesAhead(s: State, t: string, op: int, now: int)
    requires op in s.ops
  {
    var b := Begun(s, op, now);
    op in b.ops && b.ops[op].phase == Running && StateOf(b, t) == StateOf(s, t)
  }

  // Whatever a resume finds, it does not leave its tenant in Resuming: its critical section gives up
  // exactly when a correction has already made the tenant something else, and its end makes it Resumed.
  lemma ResumeOutcome(s: State, op: int, now: int)
    requires OpsKnown(s) && op in s.ops && s.ops[op].kind == Adding && s.ops[op].lifecycle
    ensures var t := s.ops[op].tenant;
            && (s.ops[op].phase == Queued ==> (op in Begun(s, op, now).ops <==> StateOf(s, t) == Resuming))
            && (s.ops[op].phase == Queued && StateOf(s, t) == Resuming ==> GoesAhead(s, t, op, now))
            && StateOf(Finished(s, op, now), t) == if StateOf(s, t) == Resuming then Resumed else StateOf(s, t)
  {
    UndoKeepsStates(s.meta, s.ops[op], s.ops[op].undo, now);
    if s.ops[op].phase == Queued {
      BeginStates(s, op, now, s.ops[op].tenant);
      BeginKeepsOps(s, op, now);
    }
    hide UndoAll, Settle, Begun;
  }

  // In every state of every run, a tenant in Resuming has a resume that leads out of it.
  lemma ResumingEnds(mode: RunMode, softLimit: nat, steps: seq<Step>, trace: seq<State>, k: nat, t: string)
    requires IsRun(Start(mode, softLimit), steps, trace) && k <= |steps| && StateOf(trace[k], t) == Resuming
    ensures exists op :: LeavesResuming(trace[k], t, op)
  {
    NeverStuck(mode, softLimit, steps, trace, k);
    StartHolds(mode, softLimit);
    RunKeeps(Start(mode, softLimit), steps, trace, k);
    InvKnowsOps(trace[k]);
    var s := trace[k];
    hide Inv, IsRun;
    var op :| op in s.ops && s.ops[op].kind == Adding && s.ops[op].lifecycle && s.ops[op].tenant == t;
    forall now
      ensures s.ops[op].phase == Queued ==> GoesAhead(s, t, op, now)
      ensures StateOf(Finished(s, op, now), t) == Resumed
    {
      ResumeOutcome(s, op, now);
    }
    hide GoesAhead, Finished;
    assert LeavesResuming(s, t, op);
  }

  lemma NobodyWaitsAtStart(mode: RunMode, softLimit: nat)
    ensures NoOrphans(Start(mode, softLimit))
  {
  }

  lemma InvKnowsOps(s: State)
    requires Inv(s)
    ensures OpsKnown(s)
  {
  }

  // The cycle holds along every run.
  lemma RunsFollowTheCycle(mode: RunMode, softLimit: nat, steps: seq<Step>, trace: seq<State>, k: nat, t: string)
    requires IsRun(Start(mode, softLimit), steps, trace) && k < |steps| && t in trace[k].meta.tenants
    ensures Edge(trace[k], steps[k], t)
  {
    hide Inv, Apply, Edge;
    StartHolds(mode, softLimit);
    RunKeeps(Start(mode, softLimit), steps, trace, k);
    InvKnowsOps(trace[k]);
    StepsFollowTheCycle(trace[k], steps[k], t);
  }

  // The step that commits a pause leaves the tenant without a single pod, whatever it held: all of
  // them are in the operation's hands, newest first.
  lemma PauseCommitsEmpty(s: State, op: int, now: int)
    requires OpsKnown(s) && Enabled(s, Begin(op, now)) && s.ops[op].kind == Removing && s.ops[op].lifecycle
    ensures var t := s.ops[op].tenant;
            var s2 := Begun(s, op, now);
            if StateOf(s, t) == Pausing
            then StateOf(s2, t) == Paused && PodsOf(s2.meta, t) == [] && s2.ops[op].taken == Reverse(PodsOf(s.meta, t))
            else s2 == s.(ops := s.ops - {op})
  {
    BeginStates(s, op, now, s.ops[op].tenant);
    var pods := PodsOf(s.meta, s.ops[op].tenant);
    assert pods[0..] == pods;
  }
}
