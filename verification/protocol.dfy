// The controller as a state machine: every critical section under c.mu is one step, and the result of
// every remote call, Kubernetes event, scan answer and CloneSet update is an input of a step.
module Protocol {
  import opened MetaSpec

  // Where a pod with an address can be.
  datatype Place =
    | InPool
    | InTenant(tenant: string)
    | InOperation(op: int)   // taken out by a running operation that has not committed it
    | InDelay                // waiting for HandleUnassingCase to return it to the pool
    | InShrink               // taken from the pool by a shrink whose CloneSet update is pending
    | Condemned              // named in a committed CloneSet update
    | Wild                   // corrected to a tenant a dedicated cluster does not know

  datatype Kind = Adding | Removing

  datatype Phase = Queued | Running

  datatype Outcome = Committed | Undone | Corrected | Delayed

  // A call of addPodIntoTenant or removePodFromTenant. lifecycle marks resumes and pauses.
  datatype Op = Op(
    kind: Kind,
    lifecycle: bool,
    tenant: string,
    want: nat,
    phase: Phase,
    taken: seq<string>,
    done: map<string, Outcome>,
    undo: seq<string>)
  {
    // Pods the operation still has in its hands.
    predicate Holds(pod: string) {
      pod in taken && (pod !in done || done[pod] == Undone)
    }

    function Result(pod: string, outcome: Outcome): Op {
      this.(done := done[pod := outcome], undo := if outcome == Undone then undo + [pod] else undo)
    }
  }

  // DoPodsWarm runs in one loop, so at most one resize of the CloneSet is under way.
  datatype Warming = Idle | Growing(delta: nat) | Shrinking(chosen: seq<string>)

  // loc and ghosts are bookkeeping of the model: where each pod is, and which pods were deleted
  // while no container held them.
  datatype State = State(
    meta: Meta,
    ready: bool,
    ops: map<int, Op>,
    delayed: map<string, string>,
    warming: Warming,
    condemned: set<string>,
    wild: set<string>,
    replicas: int,
    ghosts: set<string>,
    loc: map<string, Place>)

  // The reply to an assign or unassign call.
  datatype Reply =
    | Ok(stime: int)
    | GrpcError
    | AppError(tenant: string, stime: int, isUnassigning: bool)

  datatype Step =
    | SetupTenant(tenant: string, initial: TenantState)
    | PodEvent(pod: string, ip: string, now: int)
    | PodGone(pod: string, now: int)
    | ScanAnswered(pod: string, answer: Answer, now: int)
    | BecomeReady
    | AskPause(tenant: string, op: int)
    | AskResume(tenant: string, op: int, initCnt: nat)
    | AskResize(tenant: string, op: int, kind: Kind, cnt: nat)
    | Begin(op: int, now: int)
    | Replied(op: int, pod: string, reply: Reply, now: int)
    | Finish(op: int, now: int)
    | DelayOver(pod: string, now: int)
    | GrowAsked(delta: nat)
    | GrowAnswered(committed: bool)
    | ShrinkAsked(cnt: nat, now: int)
    | ShrinkAnswered(committed: bool, now: int)

  // What the environment and the surrounding code guarantee about a step.
  predicate Enabled(s: State, e: Step) {
    match e
    case SetupTenant(t, initial) => t != WARM && (initial == Resumed || initial == Paused)
    case PodEvent(pod, ip, _) => pod in s.meta.registry || pod !in s.meta.info   // names are never reused
    case PodGone(pod, _) => true
    case ScanAnswered(pod, _, _) =>
      if s.ready then pod in s.meta.info else pod in s.meta.registry && InfoOf(s.meta, pod).ip != ""
    case BecomeReady => !s.ready
    case AskPause(_, op) => s.ready && op !in s.ops
    case AskResume(_, op, _) => s.ready && op !in s.ops
    case AskResize(_, op, _, _) => s.ready && op !in s.ops
    case Begin(op, _) => op in s.ops && s.ops[op].phase == Queued
    case Replied(op, pod, _, _) =>
      op in s.ops && s.ops[op].phase == Running && pod in s.ops[op].taken && pod !in s.ops[op].done
    case Finish(op, _) =>
      op in s.ops && s.ops[op].phase == Running && forall n :: n in s.ops[op].taken ==> n in s.ops[op].done
    case DelayOver(pod, _) => pod in s.delayed
    case GrowAsked(_) => s.ready && s.warming == Idle
    case GrowAnswered(_) => s.warming.Growing?
    case ShrinkAsked(_, _) => s.ready && s.warming == Idle
    case ShrinkAnswered(_, _) => s.warming.Shrinking?
  }

  // ---------------------------------------------------------------------------------------------
  // The steps

  function PlaceOf(t: string): Place {
    if t == WARM then InPool else InTenant(t)
  }

  function Move(loc: map<string, Place>, pods: seq<string>, p: Place): map<string, Place> {
    map n | n in loc.Keys + (set q | q in pods) :: if n in pods then p else loc[n]
  }

  function Evented(s: State, pod: string, ip: string, now: int): State {
    var arrives := ip != "" && (pod !in s.meta.registry || InfoOf(s.meta, pod).ip == "");
    s.(meta := UpdatePod(s.meta, pod, ip, now), loc := if arrives then s.loc[pod := InPool] else s.loc)
  }

  // A pod that an operation, a delay or a shrink holds becomes a ghost; any other pod disappears.
  predicate InHands(s: State, pod: string) {
    pod in s.loc && (s.loc[pod].InOperation? || s.loc[pod].InDelay? || s.loc[pod].InShrink?)
  }

  function Gone(s: State, pod: string, now: int): State {
    if pod !in s.meta.registry then s
    else
      var out := s.(meta := Unregister(s.meta, pod, now));
      if InHands(s, pod) then out.(ghosts := s.ghosts + {pod})
      else out.(loc := s.loc - {pod}, condemned := s.condemned - {pod}, wild := s.wild - {pod})
  }

  // A correction of a pod that sits in `out` or in somebody's hands.
  function CorrectedTo(s: State, pod: string, t: string, stime: int, now: int): State {
    s.(meta := Correct(s.meta, pod, t, stime, now),
       loc := s.loc[pod := if HasTarget(s.meta, t) then PlaceOf(t) else Wild],
       wild := if HasTarget(s.meta, t) then s.wild - {pod} else s.wild + {pod})
  }

  // ApiGetCurrentTenantAndCorrect, once the answer is in.
  function Scanned(s: State, pod: string, a: Answer, now: int): State {
    if NeedsCorrection(s.meta, pod, a, !s.ready) then CorrectedTo(s, pod, a.tenant, a.stime, now) else s
  }

  // The end of HandleUnassingCase's wait: the pod goes to the pool, whether or not it still exists.
  function Redelivered(s: State, pod: string, now: int): State
    requires pod in s.delayed
  {
    s.(meta := PutWarmed(s.meta, s.delayed[pod], pod, false, now),
       delayed := s.delayed - {pod}, loc := s.loc[pod := InPool])
  }

  function Launch(s: State, op: int, kind: Kind, lifecycle: bool, t: string, want: nat): State {
    s.(ops := s.ops[op := Op(kind, lifecycle, t, want, Queued, [], map[], [])])
  }

  // AsyncPause and AsyncResume: the swap decides whether an operation is launched.
  function Lifecycle(s: State, op: int, t: string, from: TenantState, to: TenantState, kind: Kind, want: nat): State {
    if t in s.meta.tenants && s.meta.tenants[t].state == from
    then Launch(s.(meta := WithState(s.meta, t, to)), op, kind, true, t, want)
    else s
  }

  // The state a tenant must be in for the operation to go ahead.
  function Expected(o: Op): TenantState {
    if !o.lifecycle then Resumed else if o.kind == Adding then Resuming else Pausing
  }

  function Begun(s: State, op: int, now: int): State
    requires op in s.ops
  {
    var o := s.ops[op];
    if TenantOf(s.meta, o.tenant).state != Expected(o) then s.(ops := s.ops - {op})
    else
      match o.kind
      case Adding =>
        var taken := Warmed(s.meta, o.want);
        s.(meta := TakeWarmed(s.meta, o.tenant, o.want, now),
           ops := s.ops[op := o.(phase := Running, taken := taken)],
           loc := Move(s.loc, taken, InOperation(op)))
      case Removing =>
        var cnt := if o.lifecycle then |PodsOf(s.meta, o.tenant)| else o.want;
        var taken := Popped(s.meta, o.tenant, cnt);
        var popped := Pop(s.meta, o.tenant, cnt, now);
        s.(meta := if o.lifecycle then Swap(popped, o.tenant, Pausing, Paused) else popped,
           ops := s.ops[op := o.(phase := Running, want := cnt, taken := taken)],
           loc := Move(s.loc, taken, InOperation(op)))
  }

  function RepliedTo(s: State, op: int, pod: string, reply: Reply, now: int): State
    requires op in s.ops
  {
    var o := s.ops[op];
    match reply
    case Ok(stime) =>
      var m := if o.kind == Adding then PutAt(s.meta, pod, o.tenant, stime)
        else PutWarmed(s.meta, o.tenant, pod, false, now);
      s.(meta := m, ops := s.ops[op := o.Result(pod, Committed)],
         loc := s.loc[pod := if o.kind == Adding then PlaceOf(o.tenant) else InPool])
    case GrpcError =>
      s.(ops := s.ops[op := o.Result(pod, Undone)])
    case AppError(t, stime, isUnassigning) =>
      if isUnassigning then
        s.(ops := s.ops[op := o.Result(pod, Delayed)], delayed := s.delayed[pod := t], loc := s.loc[pod := InDelay])
      else
        CorrectedTo(s.(ops := s.ops[op := o.Result(pod, Corrected)]), pod, t, stime, now)
  }

  // One pod of the undo list: back where it came from if it still exists, otherwise dropped.
  function UndoOne(m: Meta, o: Op, pod: string, now: int): Meta {
    if pod !in m.registry then m
    else if o.kind == Adding then PutWarmed(m, o.tenant, pod, false, now)
    else Put(m, pod, o.tenant)
  }

  function UndoAll(m: Meta, o: Op, undo: seq<string>, now: int): Meta {
    if undo == [] then m else UndoOne(UndoAll(m, o, undo[..|undo| - 1], now), o, undo[|undo| - 1], now)
  }

  function Finished(s: State, op: int, now: int): State
    requires op in s.ops
  {
    var o := s.ops[op];
    var m := UndoAll(s.meta, o, o.undo, now);
    s.(meta := if o.kind == Adding && o.lifecycle then Swap(m, o.tenant, Resuming, Resumed) else m,
       ops := s.ops - {op},
       loc := Settle(s.loc, o.undo, if o.kind == Adding then InPool else PlaceOf(o.tenant), s.meta.registry))
  }

  // What an operation does to the bookkeeping alone, once its pods are taken: one answered call, all of
  // them in the order they arrive, the calls that failed, and the operation as it ends.
  function ReplyOne(m: Meta, o: Op, pod: string, reply: Reply, now: int): Meta {
    match reply
    case Ok(stime) =>
      if o.kind == Adding then PutAt(m, pod, o.tenant, stime) else PutWarmed(m, o.tenant, pod, false, now)
    case GrpcError => m
    case AppError(t, stime, isUnassigning) => if isUnassigning then m else Correct(m, pod, t, stime, now)
  }

  function ReplyAll(m: Meta, o: Op, answered: seq<string>, replyOf: string -> Reply, now: int): Meta {
    if answered == [] then m
    else
      var last := answered[|answered| - 1];
      ReplyOne(ReplyAll(m, o, answered[..|answered| - 1], replyOf, now), o, last, replyOf(last), now)
  }

  function Failed(answered: seq<string>, replyOf: string -> Reply): seq<string> {
    if answered == [] then []
    else
      var last := answered[|answered| - 1];
      Failed(answered[..|answered| - 1], replyOf) + if replyOf(last).GrpcError? then [last] else []
  }

  function Ended(m: Meta, o: Op, now: int): Meta {
    var undone := UndoAll(m, o, o.undo, now);
    if o.kind == Adding && o.lifecycle then Swap(undone, o.tenant, Resuming, Resumed) else undone
  }

  function AddOp(m: Meta, t: string, cnt: nat, isResume: bool): Op {
    Op(Adding, isResume, t, cnt, Running, Warmed(m, cnt), map[], [])
  }

  // A pause takes as many pods as the tenant has.
  function RemoveOp(m: Meta, t: string, cnt: nat, isPause: bool): Op {
    var want := if isPause then |PodsOf(m, t)| else cnt;
    Op(Removing, isPause, t, want, Running, Popped(m, t, want), map[], [])
  }

  function AfterAdd(m: Meta, t: string, cnt: nat, isResume: bool, answered: seq<string>, replyOf: string -> Reply,
                    now: int): Meta {
    var o := AddOp(m, t, cnt, isResume);
    Ended(ReplyAll(TakeWarmed(m, t, cnt, now), o, answered, replyOf, now), o.(undo := Failed(answered, replyOf)), now)
  }

  function AfterRemove(m: Meta, t: string, cnt: nat, isPause: bool, answered: seq<string>,
                       replyOf: string -> Reply, now: int): Meta {
    var o := RemoveOp(m, t, cnt, isPause);
    var popped := Pop(m, t, o.want, now);
    var begun := if isPause then Swap(popped, t, Pausing, Paused) else popped;
    Ended(ReplyAll(begun, o, answered, replyOf, now), o.(undo := Failed(answered, replyOf)), now)
  }

  // Undone pods that still exist go to p, the others nowhere.
  function Settle(loc: map<string, Place>, undo: seq<string>, p: Place, registry: set<string>): map<string, Place> {
    map n | n in loc && (n in undo ==> n in registry) :: if n in undo then p else loc[n]
  }

  function Apply(s: State, e: Step): State
    requires Enabled(s, e)
  {
    match e
    case SetupTenant(t, initial) => s.(meta := Setup(s.meta, t, initial))
    case PodEvent(pod, ip, now) => Evented(s, pod, ip, now)
    case PodGone(pod, now) => Gone(s, pod, now)
    case ScanAnswered(pod, a, now) => Scanned(s, pod, a, now)
    case BecomeReady => s.(ready := true)
    case AskPause(t, op) => Lifecycle(s, op, t, Resumed, Pausing, Removing, 0)
    case AskResume(t, op, cnt) => Lifecycle(s, op, t, Paused, Resuming, Adding, cnt)
    case AskResize(t, op, kind, cnt) => if t in s.meta.tenants then Launch(s, op, kind, false, t, cnt) else s
    case Begin(op, now) => Begun(s, op, now)
    case Replied(op, pod, reply, now) => RepliedTo(s, op, pod, reply, now)
    case Finish(op, now) => Finished(s, op, now)
    case DelayOver(pod, now) => Redelivered(s, pod, now)
    case GrowAsked(delta) =>
      s.(meta := WithPending(s.meta, s.meta.pool.pending + delta), warming := Growing(delta))
    case GrowAnswered(committed) =>
      var delta := s.warming.delta;
      if committed then s.(replicas := s.replicas + delta, warming := Idle)
      else s.(meta := WithPending(s.meta, s.meta.pool.pending - delta), warming := Idle)
    case ShrinkAsked(cnt, now) =>
      var chosen := Warmed(s.meta, cnt);
      s.(meta := TakeWarmed(s.meta, WARM, cnt, now), warming := Shrinking(chosen), loc := Move(s.loc, chosen, InShrink))
    case ShrinkAnswered(committed, now) => if committed then GivenUp(s) else TakenBack(s, now)
  }

  // The end of a shrink: its pods are condemned, or go back to the pool.
  function GivenUp(s: State): State
    requires s.warming.Shrinking?
  {
    var chosen := s.warming.chosen;
    s.(replicas := s.replicas - |chosen|, warming := Idle,
       condemned := s.condemned + (set n | n in chosen), loc := Move(s.loc, chosen, Condemned))
  }

  function TakenBack(s: State, now: int): State
    requires s.warming.Shrinking?
  {
    var chosen := s.warming.chosen;
    s.(meta := PutBack(s.meta, chosen, now), warming := Idle, loc := Move(s.loc, chosen, InPool))
  }

  // A failed shrink returns its pods, without asking whether they still exist.
  function PutBack(m: Meta, pods: seq<string>, now: int): Meta {
    if pods == [] then m else PutWarmed(PutBack(m, pods[..|pods| - 1], now), WARM, pods[|pods| - 1], false, now)
  }

  // A controller that has just created its CloneSet and knows no pods.
  function Start(mode: RunMode, softLimit: nat): State {
    State(Meta(mode, map[], Pool([], softLimit, map[]), {}, map[]),
          false, map[], map[], Idle, {}, {}, softLimit, {}, map[])
  }

  // trace is a run: it starts at s, and every step is enabled where it is taken.
  ghost predicate IsRun(s: State, steps: seq<Step>, trace: seq<State>) {
    && |trace| == |steps| + 1
    && trace[0] == s
    && forall i :: 0 <= i < |steps| ==> Enabled(trace[i], steps[i]) && trace[i + 1] == Apply(trace[i], steps[i])
  }
}
