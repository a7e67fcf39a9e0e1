// How a pod that Kubernetes deleted comes back into a container: exactly which steps do it, and a run
// that takes one of them.
module Revival {
  import opened MetaSpec
  import opened Protocol
  import opened Ownership
  import opened Replicas
  import opened Resync

  // The guard of the step: a success, a correction, a delayed return or the revert of a failed shrink
  // files pods without asking whether they are still registered.
  ghost predicate Revives(s: State, e: Step) {
    match e
    case Replied(_, pod, reply, _) =>
      pod !in s.meta.registry &&
      (reply.Ok? || (reply.AppError? && !reply.isUnassigning && HasTarget(s.meta, reply.tenant)))
    case DelayOver(pod, _) => pod !in s.meta.registry
    case ShrinkAnswered(committed, _) =>
      s.warming.Shrinking? && !committed && exists n :: n in s.warming.chosen && n !in s.meta.registry
    case _ => false
  }

  lemma SamePlaces(s: State, s2: State)
    requires s2.loc == s.loc && s2.meta.registry == s.meta.registry
    ensures GhostFree(s2) <==> GhostFree(s)
  {
  }

  // A step that files one pod in p.
  lemma OneFiled(s: State, s2: State, pod: string, p: Place)
    requires GhostFree(s) && s2.loc == s.loc[pod := p] && s2.meta.registry == s.meta.registry
    ensures GhostFree(s2) <==> (Container(p) ==> pod in s.meta.registry)
  {
    assert s2.loc[pod] == p;
  }

  lemma ManyFiled(s: State, s2: State, pods: seq<string>, p: Place)
    requires GhostFree(s) && s2.loc == Move(s.loc, pods, p) && s2.meta.registry == s.meta.registry
    ensures GhostFree(s2) <==> (Container(p) ==> forall n :: n in pods ==> n in s.meta.registry)
  {
    forall n | n in pods ensures n in s2.loc && s2.loc[n] == p {}
  }

  lemma RepliedIff(s: State, op: int, pod: string, reply: Reply, now: int)
    requires Inv(s) && Enabled(s, Replied(op, pod, reply, now)) && GhostFree(s)
    ensures GhostFree(RepliedTo(s, op, pod, reply, now)) <==> !Revives(s, Replied(op, pod, reply, now))
  {
    hide Inv, PutAt, PutWarmed, Correct;
    ReplyCounts(s, op, pod, reply, now);
    var s2 := RepliedTo(s, op, pod, reply, now);
    match reply
    case Ok(_) => OneFiled(s, s2, pod, if s.ops[op].kind == Adding then PlaceOf(s.ops[op].tenant) else InPool);
    case GrpcError => SamePlaces(s, s2);
    case AppError(t, _, isUnassigning) =>
      OneFiled(s, s2, pod, if isUnassigning then InDelay else if HasTarget(s.meta, t) then PlaceOf(t) else Wild);
  }

  lemma BeginPlaces(s: State, op: int, now: int)
    requires op in s.ops
    ensures var s2 := Begun(s, op, now);
            s2.loc == if op in s2.ops then Move(s.loc, s2.ops[op].taken, InOperation(op)) else s.loc
  {
    hide TakeWarmed, Pop, Swap, Move, Warmed, Popped, TenantOf, Expected, PodsOf;
  }

  lemma BeginIsNeat(s: State, op: int, now: int)
    requires Enabled(s, Begin(op, now)) && GhostFree(s)
    ensures GhostFree(Begun(s, op, now))
  {
    hide Begun, GhostFree, CountsKept, Move;
    var s2 := Begun(s, op, now);
    BeginPlaces(s, op, now);
    BeginCounts(s, op, now);
    KeepsRegistry(s.meta, s2.meta);
    if op in s2.ops {
      ManyFiled(s, s2, s2.ops[op].taken, InOperation(op));
    } else {
      SamePlaces(s, s2);
    }
  }

  lemma KeepsRegistry(m: Meta, m2: Meta)
    requires CountsKept(m, m2)
    ensures m2.registry == m.registry
  {
  }

  lemma FinishIsNeat(s: State, op: int, now: int)
    requires Enabled(s, Finish(op, now)) && GhostFree(s)
    ensures GhostFree(Finished(s, op, now))
  {
    FinishCounts(s, op, now);
    hide UndoAll, Swap;
  }

  lemma ScanIsNeat(s: State, pod: string, a: Answer, now: int)
    requires Inv(s) && Enabled(s, ScanAnswered(pod, a, now)) && GhostFree(s)
    ensures GhostFree(Scanned(s, pod, a, now))
  {
    if NeedsCorrection(s.meta, pod, a, !s.ready) {
      CorrectKeepsCounts(s.meta, pod, a.tenant, a.stime, now);
      assert pod in s.meta.registry;
      hide Inv, Correct;
      OneFiled(s, Scanned(s, pod, a, now), pod, if HasTarget(s.meta, a.tenant) then PlaceOf(a.tenant) else Wild);
    }
  }

  lemma PoolIff(s: State, e: Step)
    requires Enabled(s, e) && GhostFree(s) && (e.DelayOver? || e.ShrinkAsked? || e.ShrinkAnswered?)
    ensures GhostFree(Apply(s, e)) <==> !Revives(s, e)
  {
    hide PutWarmed, PutBack, TakeWarmed, Warmed, Move;
    var s2 := Apply(s, e);
    match e
    case DelayOver(pod, now) =>
      PutKeepsCounts(s.meta, s.delayed[pod], pod, WARM, 0, now);
      OneFiled(s, s2, pod, InPool);
    case ShrinkAsked(cnt, now) =>
      TakeKeepsCounts(s.meta, WARM, cnt, now);
      ManyFiled(s, s2, Warmed(s.meta, cnt), InShrink);
    case ShrinkAnswered(committed, now) =>
      PutBackKeepsCounts(s.meta, s.warming.chosen, now);
      ManyFiled(s, s2, s.warming.chosen, if committed then Condemned else InPool);
  }

  lemma OthersAreNeat(s: State, e: Step)
    requires Enabled(s, e) && GhostFree(s)
    requires e.SetupTenant? || e.BecomeReady? || e.AskPause? || e.AskResume? || e.AskResize? || e.GrowAsked? ||
             e.GrowAnswered?
    ensures GhostFree(Apply(s, e))
  {
    SamePlaces(s, Apply(s, e));
  }

  // From a state in which containers hold registered pods only, a step leaves such a state if and only
  // if it is none of the four revivals.
  lemma RevivesIff(s: State, e: Step)
    requires Inv(s) && Enabled(s, e) && GhostFree(s)
    ensures GhostFree(Apply(s, e)) <==> !Revives(s, e)
  {
    hide Inv, GhostFree, Revives, Evented, Gone, Begun, Finished, RepliedTo, Scanned, Revives;
    match e
    case PodEvent(pod, ip, now) => EventIsNeat(s, pod, ip, now); NeverRevives(s, e);
    case PodGone(pod, now) => GoneIsNeat(s, pod, now); NeverRevives(s, e);
    case ScanAnswered(pod, a, now) => ScanIsNeat(s, pod, a, now); NeverRevives(s, e);
    case Begin(op, now) => BeginIsNeat(s, op, now); NeverRevives(s, e);
    case Finish(op, now) => FinishIsNeat(s, op, now); NeverRevives(s, e);
    case Replied(op, pod, reply, now) => RepliedIff(s, op, pod, reply, now);
    case DelayOver(_, _) => PoolIff(s, e);
    case ShrinkAsked(_, _) => PoolIff(s, e);
    case ShrinkAnswered(_, _) => PoolIff(s, e);
    case _ => OthersAreNeat(s, e); NeverRevives(s, e);
  }

  lemma NeverRevives(s: State, e: Step)
    requires !e.Replied? && !e.DelayOver? && !e.ShrinkAnswered?
    ensures !Revives(s, e)
  {
  }

  // Over a whole run: containers hold registered pods only, all along, if and only if no step revived one.
  lemma {:induction false} GhostFreeUntilRevival(mode: RunMode, softLimit: nat, steps: seq<Step>, trace: seq<State>,
                                                 k: nat)
    requires IsRun(Start(mode, softLimit), steps, trace) && k <= |steps|
    ensures (forall j :: 0 <= j <= k ==> GhostFree(trace[j])) <==>
              (forall i :: 0 <= i < k ==> !Revives(trace[i], steps[i]))
  {
    hide Inv, Apply, Revives, GhostFree;
    StartIsNeat(mode, softLimit);
    if k > 0 {
      GhostFreeUntilRevival(mode, softLimit, steps, trace, k - 1);
      StartHolds(mode, softLimit);
      RunKeeps(Start(mode, softLimit), steps, trace, k - 1);
      if GhostFree(trace[k - 1]) { RevivesIff(trace[k - 1], steps[k - 1]); }
      assert (forall j :: 0 <= j <= k ==> GhostFree(trace[j])) <==>
             (forall j :: 0 <= j <= k - 1 ==> GhostFree(trace[j])) && GhostFree(trace[k]);
      assert (forall i :: 0 <= i < k ==> !Revives(trace[i], steps[i])) <==>
             (forall i :: 0 <= i < k - 1 ==> !Revives(trace[i], steps[i])) && !Revives(trace[k - 1], steps[k - 1]);
    }
  }

  lemma StartIsNeat(mode: RunMode, softLimit: nat)
    ensures GhostFree(Start(mode, softLimit))
  {
  }

  // ---------------------------------------------------------------------------------------------
  // Each of the four ways happens

  lemma OneMoreStep(s: State, steps: seq<Step>, trace: seq<State>, e: Step)
    requires IsRun(s, steps, trace) && Enabled(trace[|steps|], e)
    ensures IsRun(s, steps + [e], trace + [Apply(trace[|steps|], e)])
  {
    hide Apply, Enabled;
  }

  // A controller that has seen one pod, p.
  function Stage(tenants: map<string, Tenant>, pool: Pool, registry: set<string>, ready: bool, ops: map<int, Op>,
                 warming: Warming, ghosts: set<string>, place: Place): State {
    State(Meta(ServerlessMode, tenants, pool, registry, map["p" := PodInfo("1", WARM, 0)]),
          ready, ops, map[], warming, {}, {}, 1, ghosts, map["p" := place])
  }

  const NEW_TENANT: map<string, Tenant> := map["t" := Tenant([], Resumed)]
  const QUEUED_OP: map<int, Op> := map[1 := Op(Adding, false, "t", 1, Queued, [], map[], [])]
  const RUNNING_OP: map<int, Op> := map[1 := Op(Adding, false, "t", 1, Running, ["p"], map[], [])]

  lemma PoolGivesPod(m: Meta, t: string)
    requires m.pool == Pool(["p"], 0, map[]) && m.info == map["p" := PodInfo("1", WARM, 0)]
    ensures Warmed(m, 1) == ["p"]
    ensures TakeWarmed(m, t, 1, 0) == m.(pool := Pool([], 0, if t == WARM then map[] else map[t := OpResult(0, 0)]))
  {
    assert ["p"][..1] == ["p"] && ["p"][1..] == [];
    assert TakeWarmed(m, t, 1, 0).info == m.info;
  }

  // A pod is warmed, taken for a tenant, and deleted while its assign call is under way.
  const FLIGHT := [PodEvent("p", "1", 0), SetupTenant("t", Resumed), BecomeReady, AskResize("t", 1, Adding, 1),
                   Begin(1, 0), PodGone("p", 0)]

  function Flight(i: nat): State
    requires i <= 6
  {
    var full, taken := Pool(["p"], 0, map[]), Pool([], 0, map["t" := OpResult(0, 0)]);
    if i == 0 then Start(ServerlessMode, 1)
    else if i == 1 then Stage(map[], full, {"p"}, false, map[], Idle, {}, InPool)
    else if i == 2 then Stage(NEW_TENANT, full, {"p"}, false, map[], Idle, {}, InPool)
    else if i == 3 then Stage(NEW_TENANT, full, {"p"}, true, map[], Idle, {}, InPool)
    else if i == 4 then Stage(NEW_TENANT, full, {"p"}, true, QUEUED_OP, Idle, {}, InPool)
    else if i == 5 then Stage(NEW_TENANT, taken, {"p"}, true, RUNNING_OP, Idle, {}, InOperation(1))
    else Stage(NEW_TENANT, taken, {}, true, RUNNING_OP, Idle, {"p"}, InOperation(1))
  }

  lemma FlightStarts(i: nat)
    requires i < 4
    ensures Enabled(Flight(i), FLIGHT[i]) && Apply(Flight(i), FLIGHT[i]) == Flight(i + 1)
  {
  }

  lemma FlightTakes()
    ensures Enabled(Flight(4), Begin(1, 0)) && Apply(Flight(4), Begin(1, 0)) == Flight(5)
  {
    var s := Flight(4);
    PoolGivesPod(s.meta, "t");
    hide TakeWarmed, Warmed;
    assert TenantOf(s.meta, "t").state == Resumed;
    assert Move(s.loc, ["p"], InOperation(1)) == map["p" := InOperation(1)];
  }

  lemma FlightLoses()
    ensures Enabled(Flight(5), PodGone("p", 0)) && Apply(Flight(5), PodGone("p", 0)) == Flight(6)
  {
  }

  lemma DeletedInFlight() returns (trace: seq<State>)
    ensures |trace| == 7 && IsRun(Start(ServerlessMode, 1), FLIGHT, trace) && trace[6] == Flight(6)
  {
    trace := [Flight(0), Flight(1), Flight(2), Flight(3), Flight(4), Flight(5), Flight(6)];
    forall i | 0 <= i < |FLIGHT| ensures Enabled(trace[i], FLIGHT[i]) && trace[i + 1] == Apply(trace[i], FLIGHT[i]) {
      FlightTakes();
      FlightLoses();
      if i < 4 { FlightStarts(i); }
      hide Apply, Enabled, Flight;
    }
  }

  // The same for a shrink whose update fails.
  const SHRINK := [PodEvent("p", "1", 0), BecomeReady, ShrinkAsked(1, 0), PodGone("p", 0)]

  function Shrink(i: nat): State
    requires i <= 4
  {
    var full, empty := Pool(["p"], 0, map[]), Pool([], 0, map[]);
    if i == 0 then Start(ServerlessMode, 1)
    else if i == 1 then Stage(map[], full, {"p"}, false, map[], Idle, {}, InPool)
    else if i == 2 then Stage(map[], full, {"p"}, true, map[], Idle, {}, InPool)
    else if i == 3 then Stage(map[], empty, {"p"}, true, map[], Shrinking(["p"]), {}, InShrink)
    else Stage(map[], empty, {}, true, map[], Shrinking(["p"]), {"p"}, InShrink)
  }

  lemma ShrinkTakes()
    ensures Apply(Shrink(2), SHRINK[2]) == Shrink(3)
  {
    var s := Shrink(2);
    PoolGivesPod(s.meta, WARM);
    hide TakeWarmed, Warmed;
    assert Move(s.loc, ["p"], InShrink) == map["p" := InShrink];
  }

  lemma ShrinkSteps(i: nat)
    requires i < 4
    ensures Enabled(Shrink(i), SHRINK[i]) && Apply(Shrink(i), SHRINK[i]) == Shrink(i + 1)
  {
    if i == 2 {
      ShrinkTakes();
      hide Apply;
    }
  }

  lemma DeletedInShrink() returns (trace: seq<State>)
    ensures |trace| == 5 && IsRun(Start(ServerlessMode, 1), SHRINK, trace) && trace[4] == Shrink(4)
  {
    trace := [Shrink(0), Shrink(1), Shrink(2), Shrink(3), Shrink(4)];
    forall i | 0 <= i < |SHRINK| ensures Enabled(trace[i], SHRINK[i]) && trace[i + 1] == Apply(trace[i], SHRINK[i]) {
      ShrinkSteps(i);
      hide Apply, Enabled, Shrink;
    }
  }

  // A run after which step e files p, which is no longer registered, in a container.
  ghost predicate RevivesAfter(steps: seq<Step>, trace: seq<State>, e: Step) {
    && IsRun(Start(ServerlessMode, 1), steps, trace)
    && var s := trace[|steps|];
       Enabled(s, e) && Revives(s, e) && GhostFree(s) && !GhostFree(Apply(s, e))
  }

  lemma ReachedAndRevives(steps: seq<Step>, trace: seq<State>, e: Step)
    requires IsRun(Start(ServerlessMode, 1), steps, trace)
    requires Enabled(trace[|steps|], e) && Revives(trace[|steps|], e) && GhostFree(trace[|steps|])
    ensures RevivesAfter(steps, trace, e)
  {
    hide Inv, Apply;
    StartHolds(ServerlessMode, 1);
    RunKeeps(Start(ServerlessMode, 1), steps, trace, |steps|);
    RevivesIff(trace[|steps|], e);
  }

  lemma ReplyRevives(reply: Reply) returns (trace: seq<State>)
    requires reply == Ok(0) || reply == AppError("t", 0, false)
    ensures RevivesAfter(FLIGHT, trace, Replied(1, "p", reply, 0))
  {
    hide Apply, RevivesAfter;
    trace := DeletedInFlight();
    ReachedAndRevives(FLIGHT, trace, Replied(1, "p", reply, 0));
  }

  lemma DelayRevives() returns (steps: seq<Step>, trace: seq<State>)
    ensures RevivesAfter(steps, trace, DelayOver("p", 0))
  {
    hide RevivesAfter;
    var delay := Replied(1, "p", AppError("t", 0, true), 0);
    trace := DeletedInFlight();
    var s := trace[|FLIGHT|];
    OneMoreStep(Start(ServerlessMode, 1), FLIGHT, trace, delay);
    assert Apply(s, delay).delayed == map["p" := "t"] && Apply(s, delay).meta == s.meta;
    assert Apply(s, delay).loc == map["p" := InDelay];
    hide Apply;
    steps, trace := FLIGHT + [delay], trace + [Apply(s, delay)];
    ReachedAndRevives(steps, trace, DelayOver("p", 0));
  }

  lemma ShrinkRevives() returns (trace: seq<State>)
    ensures RevivesAfter(SHRINK, trace, ShrinkAnswered(false, 0))
  {
    hide Apply, RevivesAfter;
    trace := DeletedInShrink();
    assert "p" in trace[|SHRINK|].warming.chosen;
    ReachedAndRevives(SHRINK, trace, ShrinkAnswered(false, 0));
  }

  // Runs that revive a pod by a success, by a correction, by a delayed return and by a failed shrink.
  lemma EveryWayHappens() returns (runs: seq<(seq<Step>, seq<State>)>)
    ensures |runs| == 4
    ensures RevivesAfter(runs[0].0, runs[0].1, Replied(1, "p", Ok(0), 0))
    ensures RevivesAfter(runs[1].0, runs[1].1, Replied(1, "p", AppError("t", 0, false), 0))
    ensures RevivesAfter(runs[2].0, runs[2].1, DelayOver("p", 0))
    ensures RevivesAfter(runs[3].0, runs[3].1, ShrinkAnswered(false, 0))
  {
    hide RevivesAfter;
    var success := ReplyRevives(Ok(0));
    var correction := ReplyRevives(AppError("t", 0, false));
    var steps, delay := DelayRevives();
    var shrink := ShrinkRevives();
    runs := [(FLIGHT, success), (FLIGHT, correction), (steps, delay), (SHRINK, shrink)];
  }
}
