// From the request to the pods in hand: an operation takes as many pods as it was asked for, as far as
// they go round, and every operation can be brought to its end.
module Requests {
  import opened Numbers
  import opened NameLists
  import opened MetaSpec
  import opened Protocol
  import opened Ownership
  import opened Lifecycle

  // ---------------------------------------------------------------------------------------------
  // What the first critical section takes

  // The operation goes ahead: a resize of a resumed tenant, a resume of a resuming one, a pause of a
  // pausing one.
  predicate MayBegin(o: Op, st: TenantState) {
    || (!o.lifecycle && st == Resumed)
    || (o.lifecycle && o.kind == Adding && st == Resuming)
    || (o.lifecycle && o.kind == Removing && st == Pausing)
  }

  // As many pods as are asked for and there are.
  predicate Takes(taken: seq<string>, left: seq<string>, list: seq<string>, cnt: nat) {
    && |taken| == MinInt(cnt, |list|) && |taken| + |left| == |list|
  }

  // An addition takes the pool's oldest pods, oldest first, and records what it did not get; a removal
  // takes the tenant's newest pods, newest first; a pause takes all of them.
  lemma BeginTakes(s: State, op: int, now: int)
    requires Enabled(s, Begin(op, now)) && s.ops[op].tenant in s.meta.tenants && s.ops[op].tenant != WARM
    ensures var o, b := s.ops[op], Begun(s, op, now);
            var t := o.tenant;
            && (op in b.ops <==> MayBegin(o, s.meta.tenants[t].state))
            && (op !in b.ops ==> b == s.(ops := s.ops - {op}))
            && (op in b.ops ==>
                  var q := b.ops[op];
                  var pool, pods := s.meta.pool.pods, s.meta.tenants[t].pods;
                  && q == o.(phase := Running, want := q.want, taken := q.taken)
                  && q.want == (if o.kind == Removing && o.lifecycle then |pods| else o.want)
                  && (o.kind == Adding ==>
                        && Takes(q.taken, b.meta.pool.pods, pool, o.want) && q.taken + b.meta.pool.pods == pool
                        && b.meta.tenants == s.meta.tenants
                        && b.meta.pool.results == s.meta.pool.results[t := OpResult(o.want - |q.taken|, now)])
                  && (o.kind == Removing ==>
                        && Takes(q.taken, PodsOf(b.meta, t), pods, q.want)
                        && PodsOf(b.meta, t) + Reverse(q.taken) == pods
                        && b.meta.pool == s.meta.pool))
  {
    if s.ops[op].kind == Adding { AddTakes(s, op, now); } else { RemoveTakes(s, op, now); }
    hide Begun, Takes, PodsOf;
  }

  lemma AddTakes(s: State, op: int, now: int)
    requires Enabled(s, Begin(op, now)) && s.ops[op].tenant in s.meta.tenants && s.ops[op].tenant != WARM
    requires s.ops[op].kind == Adding
    ensures var o, b := s.ops[op], Begun(s, op, now);
            var t, pool := o.tenant, s.meta.pool.pods;
            && (op in b.ops <==> MayBegin(o, s.meta.tenants[t].state))
            && (op !in b.ops ==> b == s.(ops := s.ops - {op}))
            && (op in b.ops ==>
                  var q := b.ops[op];
                  && q == o.(phase := Running, taken := q.taken)
                  && Takes(q.taken, b.meta.pool.pods, pool, o.want) && q.taken + b.meta.pool.pods == pool
                  && b.meta.tenants == s.meta.tenants
                  && b.meta.pool.results == s.meta.pool.results[t := OpResult(o.want - |q.taken|, now)])
  {
    hide Move;
  }

  lemma RemoveTakes(s: State, op: int, now: int)
    requires Enabled(s, Begin(op, now)) && s.ops[op].tenant in s.meta.tenants && s.ops[op].tenant != WARM
    requires s.ops[op].kind == Removing
    ensures var o, b := s.ops[op], Begun(s, op, now);
            var t, pods := o.tenant, s.meta.tenants[o.tenant].pods;
            && (op in b.ops <==> MayBegin(o, s.meta.tenants[t].state))
            && (op !in b.ops ==> b == s.(ops := s.ops - {op}))
            && (op in b.ops ==>
                  var q := b.ops[op];
                  && q == o.(phase := Running, want := q.want, taken := q.taken)
                  && q.want == (if o.lifecycle then |pods| else o.want)
                  && Takes(q.taken, PodsOf(b.meta, t), pods, q.want)
                  && PodsOf(b.meta, t) + Reverse(q.taken) == pods
                  && b.meta.pool == s.meta.pool)
  {
    var o := s.ops[op];
    var cnt := if o.lifecycle then |PodsOf(s.meta, o.tenant)| else o.want;
    PopSplits(s.meta, o.tenant, cnt, now);
    hide Pop, Popped, Move;
  }

  lemma {:induction false} ReverseTwice(names: seq<string>)
    ensures Reverse(Reverse(names)) == names
  {
    ReverseAt(names);
    ReverseAt(Reverse(names));
  }

  lemma PopSplits(m: Meta, t: string, cnt: nat, now: int)
    requires t != WARM
    ensures PodsOf(Pop(m, t, cnt, now), t) + Reverse(Popped(m, t, cnt)) == PodsOf(m, t)
    ensures |Popped(m, t, cnt)| == MinInt(cnt, |PodsOf(m, t)|)
    ensures Pop(m, t, cnt, now).pool == m.pool
  {
    var pods := PodsOf(m, t);
    PopLeavesPrefix(m, t, cnt, now);
    PoppedLength(m, t, cnt);
    ReverseTwice(pods[|pods| - PopCount(m, t, cnt)..]);
  }

  // ---------------------------------------------------------------------------------------------
  // From the request on

  // A resize of a known tenant is queued as asked. If the tenant is Resumed when its turn comes, it takes
  // as many pods as asked for, as far as there are; otherwise nothing has happened.
  lemma ResizeTakes(s: State, t: string, op: int, kind: Kind, cnt: nat, now: int)
    requires Inv(s) && s.ready && op !in s.ops
    ensures Enabled(s, AskResize(t, op, kind, cnt))
    ensures var s1 := Apply(s, AskResize(t, op, kind, cnt));
            if t !in s.meta.tenants then s1 == s
            else
              && s1 == s.(ops := s.ops[op := Op(kind, false, t, cnt, Queued, [], map[], [])])
              && Enabled(s1, Begin(op, now))
              && var b := Apply(s1, Begin(op, now));
                 if s.meta.tenants[t].state == Resumed
                 then
                   var source := if kind == Adding then s.meta.pool.pods else s.meta.tenants[t].pods;
                   op in b.ops && b.ops[op].want == cnt && |b.ops[op].taken| == MinInt(cnt, |source|)
                 else b == s
  {
    if t in s.meta.tenants {
      var s1 := Apply(s, AskResize(t, op, kind, cnt));
      assert s1 == s.(ops := s.ops[op := Op(kind, false, t, cnt, Queued, [], map[], [])]);
      assert t != WARM;
      hide Inv;
      QueuedTakes(s, s1, t, op, now);
      hide Begun, Enabled;
    }
  }

  lemma QueuedTakes(s: State, s1: State, t: string, op: int, now: int)
    requires t in s.meta.tenants && t != WARM && op !in s.ops && op in s1.ops
    requires s1 == s.(ops := s.ops[op := s1.ops[op]])
    requires s1.ops[op].phase == Queued && s1.ops[op].tenant == t && !s1.ops[op].lifecycle
    ensures Enabled(s1, Begin(op, now))
    ensures var b, q := Begun(s1, op, now), s1.ops[op];
            if s.meta.tenants[t].state == Resumed
            then
              var source := if q.kind == Adding then s.meta.pool.pods else s.meta.tenants[t].pods;
              op in b.ops && b.ops[op].want == q.want && |b.ops[op].taken| == MinInt(q.want, |source|)
            else b == s
  {
    assert Enabled(s1, Begin(op, now));
    hide Enabled;
    BeginTakes(s1, op, now);
    assert s1.ops - {op} == s.ops;
    hide Begun, PodsOf;
  }

  // A resume is launched for a paused tenant and takes as many warm pods as asked for; anyone else's
  // request does nothing.
  lemma ResumeTakes(s: State, t: string, op: int, cnt: nat, now: int)
    requires Inv(s) && s.ready && op !in s.ops
    ensures Enabled(s, AskResume(t, op, cnt))
    ensures var s1 := Apply(s, AskResume(t, op, cnt));
            if !(t in s.meta.tenants && s.meta.tenants[t].state == Paused) then s1 == s
            else
              && StateOf(s1, t) == Resuming && Enabled(s1, Begin(op, now))
              && var b := Apply(s1, Begin(op, now));
                 && op in b.ops && b.ops[op].want == cnt && |b.ops[op].taken| == MinInt(cnt, |s.meta.pool.pods|)
                 && StateOf(b, t) == Resuming
  {
    if t in s.meta.tenants && s.meta.tenants[t].state == Paused {
      var s1 := Apply(s, AskResume(t, op, cnt));
      assert t != WARM && s1.meta.pool == s.meta.pool && s1.meta.tenants[t].state == Resuming;
      hide Inv;
      BeginTakes(s1, op, now);
      hide Begun, PodsOf;
    }
  }

  // A pause is launched for a resumed tenant and takes all the pods it has when its turn comes.
  lemma PauseTakes(s: State, t: string, op: int, now: int)
    requires Inv(s) && s.ready && op !in s.ops
    ensures Enabled(s, AskPause(t, op))
    ensures var s1 := Apply(s, AskPause(t, op));
            if !(t in s.meta.tenants && s.meta.tenants[t].state == Resumed) then s1 == s
            else
              && StateOf(s1, t) == Pausing && Enabled(s1, Begin(op, now))
              && var b := Apply(s1, Begin(op, now));
                 && op in b.ops && b.ops[op].taken == Reverse(s.meta.tenants[t].pods)
                 && StateOf(b, t) == Paused && PodsOf(b.meta, t) == []
  {
    if t in s.meta.tenants && s.meta.tenants[t].state == Resumed {
      var s1 := Apply(s, AskPause(t, op));
      assert t != WARM && s1.meta.tenants[t] == s.meta.tenants[t].(state := Pausing);
      assert OpsKnown(s1);
      hide Inv;
      PauseCommitsEmpty(s1, op, now);
      hide PodsOf;
      BeginTakes(s1, op, now);
      hide Begun;
    }
  }

  // ---------------------------------------------------------------------------------------------
  // Every operation can end

  lemma StepFirst(s: State, e: Step, steps: seq<Step>, trace: seq<State>)
    requires Enabled(s, e) && IsRun(Apply(s, e), steps, trace)
    ensures IsRun(s, [e] + steps, [s] + trace)
  {
    hide Enabled, Apply;
  }

  ghost function Unanswered(o: Op): set<string> {
    set n | n in o.taken && n !in o.done
  }

  ghost predicate ResumeIfAny(s: State, r: State, o: Op) {
    forall t :: StateOf(r, t) ==
      if t == o.tenant && o.kind == Adding && o.lifecycle && StateOf(s, t) == Resuming then Resumed else StateOf(s, t)
  }

  lemma AllAnswered(s: State, op: int, now: int)
    requires op in s.ops && s.ops[op].phase == Running && Unanswered(s.ops[op]) == {}
    ensures var e := Finish(op, now);
            Enabled(s, e) && op !in Apply(s, e).ops && ResumeIfAny(s, Apply(s, e), s.ops[op])
  {
    forall n | n in s.ops[op].taken ensures n in s.ops[op].done { assert n !in Unanswered(s.ops[op]); }
    hide Finished, Unanswered;
    forall t { FinishStates(s, op, now, t); }
    FinishKeepsOps(s, op, now);
  }

  lemma OneFails(s: State, op: int, n: string, now: int)
    requires op in s.ops && s.ops[op].phase == Running && n in Unanswered(s.ops[op])
    ensures var e := Replied(op, n, GrpcError, now);
            Enabled(s, e) &&
            var s2 := Apply(s, e);
            && s2.meta == s.meta && op in s2.ops && s2.ops[op].phase == Running
            && s2.ops[op].tenant == s.ops[op].tenant && s2.ops[op].kind == s.ops[op].kind
            && s2.ops[op].lifecycle == s.ops[op].lifecycle
            && Unanswered(s2.ops[op]) == Unanswered(s.ops[op]) - {n}
  {
  }

  // Whatever calls are still out, they can all fail; then the operation ends, and a resume has resumed.
  lemma {:induction false} RunningCanEnd(s: State, op: int, now: int) returns (steps: seq<Step>, trace: seq<State>)
    requires op in s.ops && s.ops[op].phase == Running
    ensures IsRun(s, steps, trace) && op !in trace[|steps|].ops && ResumeIfAny(s, trace[|steps|], s.ops[op])
    decreases |Unanswered(s.ops[op])|
  {
    hide Apply, Enabled, Unanswered;
    if Unanswered(s.ops[op]) == {} {
      AllAnswered(s, op, now);
      steps, trace := [Finish(op, now)], [s, Apply(s, Finish(op, now))];
    } else {
      var n :| n in Unanswered(s.ops[op]);
      var e := Replied(op, n, GrpcError, now);
      OneFails(s, op, n, now);
      steps, trace := RunningCanEnd(Apply(s, e), op, now);
      StepFirst(s, e, steps, trace);
      steps, trace := [e] + steps, [s] + trace;
    }
  }

  // From every state a run can reach, a tenant on its way between Resumed and Paused can arrive: there is a
  // continuation after which a pausing tenant is Paused and a resuming one Resumed.
  lemma TransitionsCanEnd(mode: RunMode, softLimit: nat, past: seq<Step>, states: seq<State>, k: nat, t: string)
    returns (steps: seq<Step>, trace: seq<State>)
    requires IsRun(Start(mode, softLimit), past, states) && k <= |past|
    ensures IsRun(states[k], steps, trace)
    ensures StateOf(states[k], t) == Pausing ==> StateOf(trace[|steps|], t) == Paused
    ensures StateOf(states[k], t) == Resuming ==> StateOf(trace[|steps|], t) == Resumed
  {
    var s := states[k];
    NeverStuck(mode, softLimit, past, states, k);
    StartHolds(mode, softLimit);
    RunKeeps(Start(mode, softLimit), past, states, k);
    InvKnowsOps(s);
    hide Inv, IsRun, OpsKnown;
    if StateOf(s, t) == Pausing {
      steps, trace := PauseCanEnd(s, t);
    } else if StateOf(s, t) == Resuming {
      var op :| op in s.ops && s.ops[op].kind == Adding && s.ops[op].lifecycle && s.ops[op].tenant == t;
      steps, trace := ResumeCanEnd(s, t, op);
    } else {
      steps, trace := StayHere(s);
    }
  }

  lemma StayHere(s: State) returns (steps: seq<Step>, trace: seq<State>)
    ensures IsRun(s, steps, trace)
  {
    steps, trace := [], [s];
  }

  lemma PauseCanEnd(s: State, t: string) returns (steps: seq<Step>, trace: seq<State>)
    requires OpsKnown(s) && StateOf(s, t) == Pausing && PauseWaits(s, t)
    ensures IsRun(s, steps, trace) && StateOf(trace[|steps|], t) == Paused
  {
    hide Begun;
    var op :| op in s.ops && s.ops[op].kind == Removing && s.ops[op].lifecycle && s.ops[op].tenant == t &&
              s.ops[op].phase == Queued;
    PauseCommitsEmpty(s, op, 0);
    steps, trace := [Begin(op, 0)], [s, Apply(s, Begin(op, 0))];
  }

  lemma ResumeCanEnd(s: State, t: string, op: int) returns (steps: seq<Step>, trace: seq<State>)
    requires OpsKnown(s) && StateOf(s, t) == Resuming
    requires op in s.ops && s.ops[op].kind == Adding && s.ops[op].lifecycle && s.ops[op].tenant == t
    ensures IsRun(s, steps, trace) && StateOf(trace[|steps|], t) == Resumed
  {
    hide Begun;
    if s.ops[op].phase == Running {
      steps, trace := RunningCanEnd(s, op, 0);
    } else {
      ResumeOutcome(s, op, 0);
      BeginKeepsOps(s, op, 0);
      var b := Apply(s, Begin(op, 0));
      assert b == Begun(s, op, 0);
      steps, trace := RunningCanEnd(b, op, 0);
      StepFirst(s, Begin(op, 0), steps, trace);
      steps, trace := [Begin(op, 0)] + steps, [s] + trace;
    }
  }
}
