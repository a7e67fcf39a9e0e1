// What one addPodIntoTenant or removePodFromTenant does when nothing interleaves with it.
module Accounting {
  import opened Numbers
  import opened NameLists
  import opened MetaSpec
  import opened MetaMoves
  import opened Protocol
  import opened Ownership
  import opened Requests

  // While an operation runs, its calls are answered, and Kubernetes may delete pods it holds.
  datatype Happening = Answered(pod: string, reply: Reply) | Deleted(pod: string)

  function Happened(s: State, op: int, e: Happening, now: int): (r: State)
    requires op in s.ops
    ensures op in r.ops
  {
    match e
    case Answered(pod, reply) => RepliedTo(s, op, pod, reply, now)
    case Deleted(pod) => Gone(s, pod, now)
  }

  // Everything that happens to an operation, in order.
  function AfterReplies(s: State, op: int, events: seq<Happening>, now: int): (r: State)
    requires op in s.ops
    ensures op in r.ops
  {
    if events == [] then s
    else Happened(AfterReplies(s, op, events[..|events| - 1], now), op, events[|events| - 1], now)
  }

  // addPodIntoTenant's and removePodFromTenant's return value: pods wanted but not moved.
  function Returned(o: Op): int {
    o.want - |o.taken| + |o.undo|
  }

  // Every pod is answered once, and only pods the operation still waits for; and a pod that is deleted is
  // one the operation holds: not answered yet, or waiting to be undone.
  ghost predicate Awaited(o: Op, events: seq<Happening>) {
    && (forall i :: 0 <= i < |events| ==> events[i].pod in o.taken && events[i].pod !in o.done)
    && (forall i, j :: 0 <= i < j < |events| && events[i].Answered? && events[i].pod == events[j].pod ==>
          events[j].Deleted? && events[i].reply.GrpcError?)
  }

  function OutcomeOf(r: Reply): Outcome {
    match r
    case Ok(_) => Committed
    case GrpcError => Undone
    case AppError(_, _, isUnassigning) => if isUnassigning then Delayed else Corrected
  }

  ghost predicate NoAppErrors(events: seq<Happening>) {
    forall i :: 0 <= i < |events| && events[i].Answered? ==> !events[i].reply.AppError?
  }

  // How many calls had the outcome, and how many were answered at all.
  ghost function CountOf(events: seq<Happening>, outcome: Outcome): nat {
    if events == [] then 0
    else
      var last := events[|events| - 1];
      CountOf(events[..|events| - 1], outcome) + if last.Answered? && OutcomeOf(last.reply) == outcome then 1 else 0
  }

  ghost function Answers(events: seq<Happening>): nat {
    if events == [] then 0
    else Answers(events[..|events| - 1]) + if events[|events| - 1].Answered? then 1 else 0
  }

  ghost function DeletedIn(events: seq<Happening>): set<string> {
    set i | 0 <= i < |events| && events[i].Deleted? :: events[i].pod
  }

  // Where a reply sends its pod.
  ghost function Sent(m: Meta, o: Op, r: Reply, op: int): Place {
    match r
    case Ok(_) => if o.kind == Adding then PlaceOf(o.tenant) else InPool
    case GrpcError => InOperation(op)
    case AppError(t, _, isUnassigning) =>
      if isUnassigning then InDelay else if HasTarget(m, t) then PlaceOf(t) else Wild
  }

  lemma SameOperation(s: State, op: int, pod: string, reply: Reply, now: int)
    requires op in s.ops
    ensures var o := RepliedTo(s, op, pod, reply, now).ops[op];
            && o == s.ops[op].Result(pod, OutcomeOf(reply))
            && RepliedTo(s, op, pod, reply, now).meta.registry == s.meta.registry
    ensures var s2 := RepliedTo(s, op, pod, reply, now);
            s2.loc == s.loc[pod := Sent(s.meta, s.ops[op], reply, op)] || (reply.GrpcError? && s2.loc == s.loc)
  {
    hide Append, Without;
  }

  lemma TargetsStay(m: Meta, pod: string, u: string, stime: int, now: int, t: string)
    ensures HasTarget(Correct(m, pod, u, stime, now), t) == HasTarget(m, t)
  {
    hide Append, Without;
  }

  lemma ReplyKeepsTargets(s: State, op: int, pod: string, reply: Reply, now: int, t: string)
    requires op in s.ops && s.ops[op].tenant in s.meta.tenants
    ensures HasTarget(RepliedTo(s, op, pod, reply, now).meta, t) == HasTarget(s.meta, t)
  {
    if reply.AppError? { TargetsStay(s.meta, pod, reply.tenant, reply.stime, now, t); }
    hide Append, Correct;
  }

  // The pod's call was answered.
  ghost predicate Among(events: seq<Happening>, n: string) {
    exists i :: 0 <= i < |events| && events[i].Answered? && events[i].pod == n
  }

  // The outcomes an operation has recorded after some of its events.
  ghost predicate Recorded(o: Op, o2: Op, events: seq<Happening>) {
    && o2 == o.(done := o2.done, undo := o2.undo)
    && (forall n :: n in o2.done <==> n in o.done || Among(events, n))
    && (forall i :: 0 <= i < |events| && events[i].Answered? ==> o2.done[events[i].pod] == OutcomeOf(events[i].reply))
    && |o2.undo| == |o.undo| + CountOf(events, Undone)
  }

  // Where the answered pods are, and that no other pod moved.
  ghost predicate SentOff(s: State, r: State, op: int, events: seq<Happening>)
    requires op in s.ops
  {
    && (forall i :: 0 <= i < |events| && events[i].Answered? ==>
          events[i].pod in r.loc && r.loc[events[i].pod] == Sent(s.meta, s.ops[op], events[i].reply, op))
    && (forall n :: !Among(events, n) ==> (n in r.loc <==> n in s.loc) && (n in s.loc ==> r.loc[n] == s.loc[n]))
  }

  ghost predicate Progress(s: State, r: State, op: int, events: seq<Happening>) {
    && op in s.ops && op in r.ops
    && Recorded(s.ops[op], r.ops[op], events)
    && SentOff(s, r, op, events)
    && r.meta.registry == s.meta.registry - DeletedIn(events)
    && (forall t :: HasTarget(r.meta, t) == HasTarget(s.meta, t))
  }

  lemma AmongMore(rest: seq<Happening>, last: Happening)
    ensures forall n :: Among(rest + [last], n) <==> Among(rest, n) || (last.Answered? && n == last.pod)
    ensures DeletedIn(rest + [last]) == DeletedIn(rest) + if last.Deleted? then {last.pod} else {}
  {
    var all := rest + [last];
    assert all[|rest|] == last;
    forall n | Among(rest, n) ensures Among(all, n) {
      var i :| 0 <= i < |rest| && rest[i].Answered? && rest[i].pod == n;
      assert all[i].pod == n;
    }
    forall n | n in DeletedIn(rest) ensures n in DeletedIn(all) {
      var i :| 0 <= i < |rest| && rest[i].Deleted? && rest[i].pod == n;
      assert all[i].pod == n;
    }
  }

  lemma RecordedMore(o: Op, o2: Op, rest: seq<Happening>, last: Happening)
    requires Recorded(o, o2, rest) && (last.Answered? ==> !Among(rest, last.pod))
    ensures Recorded(o, if last.Answered? then o2.Result(last.pod, OutcomeOf(last.reply)) else o2, rest + [last])
  {
    var all := rest + [last];
    AmongMore(rest, last);
    assert all[..|all| - 1] == rest && all[|rest|] == last;
    forall i | 0 <= i < |rest| && rest[i].Answered?
      ensures all[i] == rest[i] && (last.Answered? ==> all[i].pod != last.pod) {}
  }

  lemma SentMore(s: State, r: State, r2: State, op: int, rest: seq<Happening>, last: Happening)
    requires op in s.ops && SentOff(s, r, op, rest) && (last.Answered? ==> !Among(rest, last.pod))
    requires r2.loc == if last.Answered? then r.loc[last.pod := Sent(s.meta, s.ops[op], last.reply, op)] else r.loc
    ensures SentOff(s, r2, op, rest + [last])
  {
    hide Sent;
    var all := rest + [last];
    AmongMore(rest, last);
    assert all[|rest|] == last;
    forall i | 0 <= i < |rest| && rest[i].Answered?
      ensures all[i] == rest[i] && (last.Answered? ==> all[i].pod != last.pod) {}
  }

  lemma ProgressStep(s: State, r: State, op: int, rest: seq<Happening>, last: Happening, now: int)
    requires Inv(r) && Progress(s, r, op, rest) && r.ops[op].Holds(last.pod)
    requires last.Answered? ==> !Among(rest, last.pod)
    ensures Progress(s, Happened(r, op, last, now), op, rest + [last])
  {
    if last.Answered? {
      AnswerProgress(s, r, op, rest, last, now);
    } else {
      DeletionProgress(s, r, op, rest, last, now);
    }
  }

  // A reply that moves nothing leaves the pod in the operation's hands, where it was.
  lemma AnswerMoves(r: State, op: int, pod: string, reply: Reply, now: int)
    requires Inv(r) && op in r.ops && r.ops[op].Holds(pod)
    ensures RepliedTo(r, op, pod, reply, now).loc == r.loc[pod := Sent(r.meta, r.ops[op], reply, op)]
  {
    SameOperation(r, op, pod, reply, now);
    HeldWhere(r, pod);
    hide RepliedTo, Inv, HasTarget;
  }

  lemma AnswerKeepsTargets(r: State, op: int, pod: string, reply: Reply, now: int)
    requires op in r.ops && r.ops[op].tenant in r.meta.tenants
    ensures forall t :: HasTarget(RepliedTo(r, op, pod, reply, now).meta, t) == HasTarget(r.meta, t)
  {
    hide RepliedTo, HasTarget;
    forall t ensures HasTarget(RepliedTo(r, op, pod, reply, now).meta, t) == HasTarget(r.meta, t) {
      ReplyKeepsTargets(r, op, pod, reply, now, t);
    }
  }

  lemma AnswerProgress(s: State, r: State, op: int, rest: seq<Happening>, last: Happening, now: int)
    requires Inv(r) && Progress(s, r, op, rest) && r.ops[op].Holds(last.pod) && last.Answered? && !Among(rest, last.pod)
    ensures Progress(s, RepliedTo(r, op, last.pod, last.reply, now), op, rest + [last])
  {
    var r2 := RepliedTo(r, op, last.pod, last.reply, now);
    assert OpValid(r.ops[op]) && r.ops[op].tenant in r.meta.tenants;
    hide RepliedTo, Inv, HasTarget, Recorded, SentOff, Sent, OpValid;
    SameOperation(r, op, last.pod, last.reply, now);
    AnswerKeepsTargets(r, op, last.pod, last.reply, now);
    AnswerMoves(r, op, last.pod, last.reply, now);
    SentAlike(s, r, op, rest, last.reply);
    SentMore(s, r, r2, op, rest, last);
    RecordedMore(s.ops[op], r.ops[op], rest, last);
    AmongMore(rest, last);
  }

  // A deletion takes a held pod from the registry and from nowhere else.
  lemma HeldGone(r: State, op: int, pod: string, now: int)
    requires Inv(r) && op in r.ops && r.ops[op].Holds(pod)
    ensures var r2 := Gone(r, pod, now);
            && r2.ops == r.ops && r2.loc == r.loc && r2.meta.registry == r.meta.registry - {pod}
            && r2.meta.tenants == r.meta.tenants && r2.meta.pool == r.meta.pool && r2.meta.mode == r.meta.mode
  {
    HeldWhere(r, pod);
    assert Holds(r, pod, InPool) <==> pod in r.loc && r.loc[pod] == InPool;
    hide NoDup, OpValid;
  }

  lemma DeletionProgress(s: State, r: State, op: int, rest: seq<Happening>, last: Happening, now: int)
    requires Inv(r) && Progress(s, r, op, rest) && r.ops[op].Holds(last.pod) && last.Deleted?
    ensures Progress(s, Gone(r, last.pod, now), op, rest + [last])
  {
    var r2 := Gone(r, last.pod, now);
    HeldGone(r, op, last.pod, now);
    hide Gone, Inv, Recorded, SentOff;
    SentMore(s, r, r2, op, rest, last);
    RecordedMore(s.ops[op], r.ops[op], rest, last);
    AmongMore(rest, last);
  }

  lemma SentAlike(s: State, r: State, op: int, events: seq<Happening>, reply: Reply)
    requires Progress(s, r, op, events)
    ensures Sent(r.meta, r.ops[op], reply, op) == Sent(s.meta, s.ops[op], reply, op)
  {
    hide HasTarget;
  }

  // The pod of the next event is still in the operation's hands.
  lemma StillHeld(o: Op, o2: Op, rest: seq<Happening>, last: Happening)
    requires Awaited(o, rest + [last]) && Recorded(o, o2, rest)
    ensures o2.Holds(last.pod) && (last.Answered? ==> !Among(rest, last.pod)) && Awaited(o, rest)
  {
    var all := rest + [last];
    assert all[|rest|] == last;
    forall i | 0 <= i < |rest| ensures all[i] == rest[i] {}
    if Among(rest, last.pod) {
      var i :| 0 <= i < |rest| && rest[i].Answered? && rest[i].pod == last.pod;
      assert all[i].reply.GrpcError?;
    }
  }

  // After any such events each answered pod is where its reply sends it, the operation has recorded every
  // outcome, and exactly the deleted pods have left the registry.
  lemma {:induction false} RepliesProgress(s: State, op: int, events: seq<Happening>, now: int)
    requires Inv(s) && op in s.ops && s.ops[op].phase == Running && Awaited(s.ops[op], events)
    ensures Inv(AfterReplies(s, op, events, now))
    ensures Progress(s, AfterReplies(s, op, events, now), op, events)
    decreases |events|, 0
  {
    hide Inv, Happened;
    if events == [] {
    } else {
      var last := events[|events| - 1];
      var rest := events[..|events| - 1];
      assert events == rest + [last];
      HeldUntil(s, op, rest, last, now);
      var r := AfterReplies(s, op, rest, now);
      HappenedKeeps(r, op, last, now);
      ProgressStep(s, r, op, rest, last, now);
    }
  }

  lemma HeldUntil(s: State, op: int, rest: seq<Happening>, last: Happening, now: int)
    requires Inv(s) && op in s.ops && s.ops[op].phase == Running && Awaited(s.ops[op], rest + [last])
    ensures var r := AfterReplies(s, op, rest, now);
            && Inv(r) && Progress(s, r, op, rest) && r.ops[op].Holds(last.pod) && r.ops[op].phase == Running
            && (last.Answered? ==> last.pod !in r.ops[op].done && !Among(rest, last.pod))
            && Awaited(s.ops[op], rest)
    decreases |rest|, 1
  {
    hide Inv;
    AwaitedPrefix(s.ops[op], rest, last);
    RepliesProgress(s, op, rest, now);
    StillHeld(s.ops[op], AfterReplies(s, op, rest, now).ops[op], rest, last);
  }

  lemma AwaitedPrefix(o: Op, rest: seq<Happening>, last: Happening)
    requires Awaited(o, rest + [last])
    ensures Awaited(o, rest) && last.pod in o.taken && last.pod !in o.done
  {
    var all := rest + [last];
    assert all[|rest|] == last;
    forall i | 0 <= i < |rest| ensures all[i] == rest[i] {}
  }

  lemma HappenedKeeps(r: State, op: int, e: Happening, now: int)
    requires Inv(r) && op in r.ops && r.ops[op].phase == Running && r.ops[op].Holds(e.pod)
    requires e.Answered? ==> e.pod !in r.ops[op].done
    ensures Inv(Happened(r, op, e, now))
  {
    hide Inv;
    match e
    case Answered(pod, reply) => RepliedKeeps(r, op, pod, reply, now);
    case Deleted(pod) => GoneKeeps(r, pod, now);
  }

  function StepOf(op: int, e: Happening, now: int): Step {
    match e
    case Answered(pod, reply) => Replied(op, pod, reply, now)
    case Deleted(pod) => PodGone(pod, now)
  }

  // Such events are steps of the protocol.
  lemma {:induction false} EventsAreSteps(s: State, op: int, events: seq<Happening>, now: int)
    requires Inv(s) && op in s.ops && s.ops[op].phase == Running && Awaited(s.ops[op], events)
    ensures forall i :: 0 <= i < |events| ==>
              var r := AfterReplies(s, op, events[..i], now);
              && Enabled(r, StepOf(op, events[i], now))
              && Apply(r, StepOf(op, events[i], now)) == AfterReplies(s, op, events[..i + 1], now)
  {
    hide Inv, Awaited, Progress, AfterReplies;
    forall i | 0 <= i < |events|
      ensures Enabled(AfterReplies(s, op, events[..i], now), StepOf(op, events[i], now))
      ensures Apply(AfterReplies(s, op, events[..i], now), StepOf(op, events[i], now)) ==
                AfterReplies(s, op, events[..i + 1], now)
    {
      AwaitedUpTo(s.ops[op], events, i + 1);
      HeldUntil(s, op, events[..i], events[i], now);
      AfterOneMore(s, op, events[..i], events[i], now);
      assert events[..i] + [events[i]] == events[..i + 1];
    }
  }

  lemma AfterOneMore(s: State, op: int, rest: seq<Happening>, last: Happening, now: int)
    requires op in s.ops
    ensures AfterReplies(s, op, rest + [last], now) == Happened(AfterReplies(s, op, rest, now), op, last, now)
  {
    var all := rest + [last];
    assert all[..|all| - 1] == rest && all[|all| - 1] == last;
  }

  lemma AwaitedUpTo(o: Op, events: seq<Happening>, k: nat)
    requires Awaited(o, events) && k <= |events|
    ensures Awaited(o, events[..k])
    ensures k > 0 ==> events[..k] == events[..k - 1] + [events[k - 1]]
  {
    forall i | 0 <= i < k ensures events[..k][i] == events[i] {}
  }

  // ---------------------------------------------------------------------------------------------
  // The tenant's count

  lemma ReplyCountsPods(r: State, op: int, pod: string, reply: Reply, now: int)
    requires Inv(r) && op in r.ops && r.ops[op].Holds(pod) && !reply.AppError?
    ensures var t := r.ops[op].tenant;
            |PodsOf(RepliedTo(r, op, pod, reply, now).meta, t)| ==
              |PodsOf(r.meta, t)| + if r.ops[op].kind == Adding && reply.Ok? then 1 else 0
  {
    var t := r.ops[op].tenant;
    HeldWhere(r, pod);
    if pod in PodsOf(r.meta, t) { ListedMeansLocated(r, pod, t); }
  }

  lemma HappenedCountsPods(r: State, op: int, e: Happening, now: int)
    requires Inv(r) && op in r.ops && r.ops[op].Holds(e.pod) && (e.Answered? ==> !e.reply.AppError?)
    ensures var t := r.ops[op].tenant;
            |PodsOf(Happened(r, op, e, now).meta, t)| ==
              |PodsOf(r.meta, t)| + if r.ops[op].kind == Adding && e.Answered? && e.reply.Ok? then 1 else 0
  {
    match e
    case Answered(pod, reply) => ReplyCountsPods(r, op, pod, reply, now); hide RepliedTo;
    case Deleted(pod) => HeldGone(r, op, pod, now); hide Gone, Inv;
  }

  lemma {:induction false} RepliesCountPods(s: State, op: int, events: seq<Happening>, now: int)
    requires Inv(s) && op in s.ops && s.ops[op].phase == Running && Awaited(s.ops[op], events) && NoAppErrors(events)
    ensures |PodsOf(AfterReplies(s, op, events, now).meta, s.ops[op].tenant)| ==
              |PodsOf(s.meta, s.ops[op].tenant)| + if s.ops[op].kind == Adding then CountOf(events, Committed) else 0
    ensures CountOf(events, Committed) + CountOf(events, Undone) == Answers(events)
  {
    hide Inv, Happened, PodsOf;
    if events != [] {
      var last := events[|events| - 1];
      var rest := events[..|events| - 1];
      assert events == rest + [last];
      HeldUntil(s, op, rest, last, now);
      RepliesCountPods(s, op, rest, now);
      HappenedCountsPods(AfterReplies(s, op, rest, now), op, last, now);
    }
  }

  // The undo of some pods lists no other pod with the tenant.
  lemma UndoListsNoOther(m: Meta, o: Op, rest: seq<string>, last: string, now: int)
    requires Lists(m) && NoDup(rest) && last !in rest && o.tenant in m.tenants
    requires (forall n :: n in rest ==> n in m.info && Nowhere(m, n)) && Nowhere(m, last)
    ensures var m1 := UndoAll(m, o, rest, now);
            && last !in PodsOf(m1, o.tenant) && m1.registry == m.registry
            && WARM !in m1.tenants && o.tenant in m1.tenants
  {
    hide Nowhere, PodsOf, UndoAll;
    UndoAllMoves(m, o, rest, now);
    NotListed(m, last, o.tenant);
    assert last !in Existing(m, rest);
  }

  lemma ExistingMore(m: Meta, rest: seq<string>, last: string)
    requires last !in rest
    ensures |Existing(m, rest + [last])| == |Existing(m, rest)| + if last in m.registry then 1 else 0
  {
    assert last !in Existing(m, rest);
    assert Existing(m, rest + [last]) == Existing(m, rest) + if last in m.registry then {last} else {};
  }

  lemma {:induction false} UndoCountsPods(m: Meta, o: Op, undo: seq<string>, now: int)
    requires Lists(m) && NoDup(undo) && o.tenant in m.tenants
    requires forall n :: n in undo ==> n in m.info && Nowhere(m, n)
    ensures |PodsOf(UndoAll(m, o, undo, now), o.tenant)| ==
              |PodsOf(m, o.tenant)| + if o.kind == Removing then |Existing(m, undo)| else 0
  {
    hide Nowhere, Lists, PodsOf, UndoOne, Existing;
    if undo != [] {
      var last := undo[|undo| - 1];
      var rest := undo[..|undo| - 1];
      assert undo == rest + [last];
      UndoCountsPods(m, o, rest, now);
      UndoListsNoOther(m, o, rest, last, now);
      ExistingMore(m, rest, last);
      UndoOneCounts(UndoAll(m, o, rest, now), o, last, now);
    } else {
      NoneExisting(m);
    }
  }

  lemma NoneExisting(m: Meta)
    ensures Existing(m, []) == {}
  {
  }

  lemma NotListed(m: Meta, n: string, t: string)
    requires Nowhere(m, n)
    ensures n !in PodsOf(m, t)
  {
  }

  lemma UndoOneCounts(m: Meta, o: Op, pod: string, now: int)
    requires WARM !in m.tenants && o.tenant in m.tenants && pod !in PodsOf(m, o.tenant)
    ensures |PodsOf(UndoOne(m, o, pod, now), o.tenant)| ==
              |PodsOf(m, o.tenant)| + if o.kind == Removing && pod in m.registry then 1 else 0
  {
  }

  // ---------------------------------------------------------------------------------------------
  // A whole operation

  // Undone pods that Kubernetes deleted before the undo: m is the bookkeeping at that moment.
  ghost function Dropped(m: Meta, o: Op): int {
    |o.undo| - |Existing(m, o.undo)|
  }

  ghost predicate AllAnswered(o: Op, events: seq<Happening>) {
    Awaited(o, events) && forall n :: n in o.taken ==> Among(events, n)
  }

  ghost function AnsweredPods(events: seq<Happening>): set<string> {
    if events == [] then {}
    else
      var last := events[|events| - 1];
      AnsweredPods(events[..|events| - 1]) + if last.Answered? then {last.pod} else {}
  }

  lemma {:induction false} AnsweredAreAmong(events: seq<Happening>)
    ensures forall n :: n in AnsweredPods(events) <==> Among(events, n)
  {
    if events != [] {
      var last := events[|events| - 1];
      var rest := events[..|events| - 1];
      assert events == rest + [last];
      AnsweredAreAmong(rest);
      AmongMore(rest, last);
      hide Among;
    }
  }

  lemma NotTwice(o: Op, rest: seq<Happening>, last: Happening)
    requires Awaited(o, rest + [last]) && last.Answered?
    ensures !Among(rest, last.pod)
  {
    var all := rest + [last];
    assert all[|rest|] == last;
    forall i | 0 <= i < |rest| ensures all[i] == rest[i] {}
  }

  lemma {:induction false} DistinctAnswers(o: Op, events: seq<Happening>)
    requires Awaited(o, events)
    ensures |AnsweredPods(events)| == Answers(events)
  {
    hide Awaited, Among;
    if events != [] {
      var last := events[|events| - 1];
      var rest := events[..|events| - 1];
      assert events == rest + [last];
      AwaitedPrefix(o, rest, last);
      DistinctAnswers(o, rest);
      AnsweredAreAmong(rest);
      if last.Answered? { NotTwice(o, rest, last); }
    }
  }

  lemma OneReplyEach(o: Op, events: seq<Happening>)
    requires NoDup(o.taken) && AllAnswered(o, events)
    ensures Answers(events) == |o.taken|
  {
    SetOfDistinct(o.taken);
    DistinctAnswers(o, events);
    AnsweredAreAmong(events);
    assert AnsweredPods(events) == ToSet(o.taken);
  }

  // Only deletions of pods the operation holds interleave: it takes its pods, hears about each of them,
  // loses some of them, and ends.
  ghost predicate Isolated(s: State, op: int, events: seq<Happening>, now: int) {
    && Inv(s) && Enabled(s, Begin(op, now))
    && TenantOf(s.meta, s.ops[op].tenant).state == Expected(s.ops[op])
    && var b := Begun(s, op, now);
       op in b.ops && AllAnswered(b.ops[op], events)
  }

  lemma BegunRuns(s: State, op: int, now: int)
    requires Inv(s) && Enabled(s, Begin(op, now))
    requires TenantOf(s.meta, s.ops[op].tenant).state == Expected(s.ops[op])
    ensures var b := Begun(s, op, now);
            && op in b.ops && b.ops[op].phase == Running && b.ops[op].done == map[] && b.ops[op].undo == []
            && b.ops[op].kind == s.ops[op].kind && b.ops[op].tenant == s.ops[op].tenant
            && b.meta.registry == s.meta.registry
            && |PodsOf(b.meta, s.ops[op].tenant)| ==
                 |PodsOf(s.meta, s.ops[op].tenant)| - if s.ops[op].kind == Removing then |b.ops[op].taken| else 0
  {
    assert OpValid(s.ops[op]) && s.ops[op].done == map[];
    NoMembers(s.ops[op].undo);
  }

  lemma BegunTakes(s: State, op: int, now: int)
    requires Inv(s) && Enabled(s, Begin(op, now)) && op in Begun(s, op, now).ops
    ensures s.ops[op].tenant in s.meta.tenants
    ensures var o, q := s.ops[op], Begun(s, op, now).ops[op];
            var pods := s.meta.tenants[o.tenant].pods;
            && q.want == (if o.kind == Removing && o.lifecycle then |pods| else o.want)
            && |q.taken| == MinInt(q.want, if o.kind == Adding then |s.meta.pool.pods| else |pods|)
  {
    OpsAreNamed(s, op);
    hide Inv;
    BeginTakes(s, op, now);
    hide Begun, PodsOf;
  }

  lemma OpsAreNamed(s: State, op: int)
    requires Inv(s) && op in s.ops
    ensures s.ops[op].tenant in s.meta.tenants && s.ops[op].tenant != WARM
  {
  }

  lemma BegunDistinct(b: State, op: int)
    requires Inv(b) && op in b.ops
    ensures NoDup(b.ops[op].taken)
  {
    assert OpValid(b.ops[op]);
  }

  // Where an answered pod is once the operation has ended: a failed call's pod is back where it came from
  // if it was registered to the end, and nowhere otherwise; any other is where its reply sent it.
  ghost predicate EndsAt(m: Meta, o: Op, op: int, f: State, registry: set<string>, n: string, reply: Reply) {
    if reply.GrpcError?
    then (n in f.loc <==> n in registry) && (n in f.loc ==> f.loc[n] == PlaceOf(UndoTarget(o)))
    else n in f.loc && f.loc[n] == Sent(m, o, reply, op)
  }

  // Each pod taken ends up where its reply says: committed pods with the tenant (or the pool), failed
  // calls back where they came from unless Kubernetes deleted the pod on the way, corrections and delays
  // as answered. It takes what was asked for (a pause: all pods) as far as there are pods, and the value
  // returned counts exactly the pods asked for and not moved; so without application errors an add grows
  // the tenant by the difference, and a removal shrinks it by that less the dropped pods.
  lemma IsolatedAccounts(s: State, op: int, events: seq<Happening>, now: int, later: int)
    requires Isolated(s, op, events, now)
    ensures var b := Begun(s, op, now);
            var r := AfterReplies(b, op, events, now);
            && Enabled(r, Finish(op, later))
            && r.meta.registry == s.meta.registry - DeletedIn(events)
            && var o := r.ops[op];
               var f := Finished(r, op, later);
               && Inv(f)
               && o.want == (if s.ops[op].kind == Removing && s.ops[op].lifecycle
                             then |s.meta.tenants[s.ops[op].tenant].pods| else s.ops[op].want)
               && |o.taken| == MinInt(o.want, if s.ops[op].kind == Adding then |s.meta.pool.pods|
                                              else |s.meta.tenants[s.ops[op].tenant].pods|)
               && o.kind == s.ops[op].kind && o.tenant == s.ops[op].tenant
               && Returned(o) == o.want - |o.taken| + CountOf(events, Undone)
               && (forall i :: 0 <= i < |events| && events[i].Answered? ==>
                     EndsAt(b.meta, b.ops[op], op, f, r.meta.registry, events[i].pod, events[i].reply))
               && (NoAppErrors(events) ==>
                     |PodsOf(f.meta, o.tenant)| == |PodsOf(s.meta, o.tenant)| +
                       if o.kind == Adding then o.want - Returned(o) else Returned(o) - o.want - Dropped(r.meta, o))
  {
    hide Inv, PodsOf, Finished, Begun, AfterReplies, Sent, SentOff, EndsAt;
    var b := Begun(s, op, now);
    BeginKeeps(s, op, now);
    BegunRuns(s, op, now);
    BegunTakes(s, op, now);
    BegunDistinct(b, op);
    RepliesProgress(b, op, events, now);
    OneReplyEach(b.ops[op], events);
    var r := AfterReplies(b, op, events, now);
    EndsAccounted(b, r, op, events, later);
    if NoAppErrors(events) {
      RepliesCountPods(b, op, events, now);
    }
  }

  ghost predicate AllOk(events: seq<Happening>) {
    forall i :: 0 <= i < |events| ==> events[i].Answered? && events[i].reply.Ok?
  }

  lemma {:induction false} NoneUndone(events: seq<Happening>)
    requires AllOk(events)
    ensures CountOf(events, Undone) == 0 && NoAppErrors(events)
  {
    if events != [] { NoneUndone(events[..|events| - 1]); }
  }

  // The step that asks for the difference between n and target, as ResizePodsOfTenant does.
  function ResizeTo(t: string, op: int, n: nat, target: nat): Step {
    if target > n then AskResize(t, op, Adding, target - n) else AskResize(t, op, Removing, n - target)
  }

  lemma ResizeQueued(s: State, t: string, op: int, target: nat, now: int)
    requires Inv(s) && s.ready && op !in s.ops && t in s.meta.tenants
    ensures var n := |s.meta.tenants[t].pods|;
            var e := ResizeTo(t, op, n, target);
            && Enabled(s, e)
            && var s1 := Apply(s, e);
               && s1.meta == s.meta && op in s1.ops && s1.ops[op].tenant == t && !s1.ops[op].lifecycle
               && s1.ops[op].kind == (if target > n then Adding else Removing)
               && s1.ops[op].want == (if target > n then target - n else n - target)
               && Enabled(s1, Begin(op, now)) && Apply(s1, Begin(op, now)) == Begun(s1, op, now)
  {
    hide Inv, Begun;
  }

  // A resize of a resumed tenant whose calls all succeed brings it to the count asked for: a shrink always,
  // a growth as far as there are warm pods.
  lemma ResizeReaches(s: State, t: string, op: int, target: nat, events: seq<Happening>, now: int, later: int)
    requires Inv(s) && s.ready && op !in s.ops && t in s.meta.tenants && s.meta.tenants[t].state == Resumed
    requires var e := ResizeTo(t, op, |s.meta.tenants[t].pods|, target);
             Enabled(s, e) && Isolated(Apply(s, e), op, events, now) && AllOk(events)
    ensures var n := |s.meta.tenants[t].pods|;
            var b := Apply(Apply(s, ResizeTo(t, op, n, target)), Begin(op, now));
            && op in b.ops
            && var f := Finished(AfterReplies(b, op, events, now), op, later);
               |PodsOf(f.meta, t)| == if target > n then MinInt(target, n + |s.meta.pool.pods|) else target
  {
    ResizeQueued(s, t, op, target, now);
    var s1 := Apply(s, ResizeTo(t, op, |s.meta.tenants[t].pods|, target));
    hide Inv, Begun, AfterReplies, Finished, Apply, Enabled, Isolated, PodsOf;
    AllOkMoves(s1, op, events, now, later);
  }

  // With every call a success, exactly the pods taken change sides.
  lemma AllOkMoves(s: State, op: int, events: seq<Happening>, now: int, later: int)
    requires Isolated(s, op, events, now) && AllOk(events) && !s.ops[op].lifecycle
    ensures op in Begun(s, op, now).ops && s.ops[op].tenant in s.meta.tenants
    ensures var o, n := s.ops[op], |s.meta.tenants[s.ops[op].tenant].pods|;
            var f := Finished(AfterReplies(Begun(s, op, now), op, events, now), op, later);
            |PodsOf(f.meta, o.tenant)| ==
              if o.kind == Adding then n + MinInt(o.want, |s.meta.pool.pods|) else n - MinInt(o.want, n)
  {
    NoneUndone(events);
    CleanCount(s, op, events, now, later);
  }

  // The count alone, when no call fails.
  lemma CleanCount(s: State, op: int, events: seq<Happening>, now: int, later: int)
    requires Isolated(s, op, events, now) && NoAppErrors(events) && CountOf(events, Undone) == 0
    ensures op in Begun(s, op, now).ops && s.ops[op].tenant in s.meta.tenants
    ensures var q, t := Begun(s, op, now).ops[op], s.ops[op].tenant;
            var f := Finished(AfterReplies(Begun(s, op, now), op, events, now), op, later);
            && |PodsOf(f.meta, t)| == |s.meta.tenants[t].pods| + (if q.kind == Adding then |q.taken| else -|q.taken|)
            && q.kind == s.ops[op].kind
            && (!s.ops[op].lifecycle ==>
                  |q.taken| == MinInt(s.ops[op].want, if q.kind == Adding then |s.meta.pool.pods|
                                                      else |s.meta.tenants[t].pods|))
  {
    OpsAreNamed(s, op);
    hide Inv, PodsOf, Finished, Begun, AfterReplies, EndsAt, Existing, Sent, SentOff;
    var b := Begun(s, op, now);
    BegunTakes(s, op, now);
    BegunRuns(s, op, now);
    BeginKeeps(s, op, now);
    BegunDistinct(b, op);
    ListOf(s.meta, s.ops[op].tenant);
    RepliesProgress(b, op, events, now);
    RepliesCountPods(b, op, events, now);
    OneReplyEach(b.ops[op], events);
    var r := AfterReplies(b, op, events, now);
    EndsAccounted(b, r, op, events, later);
    assert r.ops[op].undo == [];
    NoneExisting(r.meta);
  }

  lemma ListOf(m: Meta, t: string)
    requires t in m.tenants && t != WARM
    ensures PodsOf(m, t) == m.tenants[t].pods
  {
  }

  lemma EndsAccounted(b: State, r: State, op: int, events: seq<Happening>, later: int)
    requires Inv(r) && Progress(b, r, op, events) && AllAnswered(b.ops[op], events) && b.ops[op].phase == Running
    requires b.ops[op].undo == [] && b.ops[op].done == map[]
    ensures Enabled(r, Finish(op, later)) && Inv(Finished(r, op, later))
    ensures |r.ops[op].undo| == CountOf(events, Undone)
    ensures forall i :: 0 <= i < |events| && events[i].Answered? ==>
              EndsAt(b.meta, b.ops[op], op, Finished(r, op, later), r.meta.registry, events[i].pod, events[i].reply)
    ensures |PodsOf(Finished(r, op, later).meta, r.ops[op].tenant)| ==
              |PodsOf(r.meta, r.ops[op].tenant)| +
              if r.ops[op].kind == Removing then |Existing(r.meta, r.ops[op].undo)| else 0
  {
    hide Inv, PodsOf, Finished, OpValid, Sent, HasTarget;
    FinishKeeps(r, op, later);
    FinishCountsPods(r, op, later);
    forall i | 0 <= i < |events| && events[i].Answered?
      ensures EndsAt(b.meta, b.ops[op], op, Finished(r, op, later), r.meta.registry, events[i].pod, events[i].reply)
    {
      SettledAt(r, op, events[i].pod, events[i].reply, later);
    }
  }

  lemma SettledAt(r: State, op: int, n: string, reply: Reply, later: int)
    requires Inv(r) && op in r.ops && n in r.ops[op].done && r.ops[op].done[n] == OutcomeOf(reply) && n in r.loc
    ensures var f := Finished(r, op, later);
            if reply.GrpcError?
            then (n in f.loc <==> n in r.meta.registry) && (n in f.loc ==> f.loc[n] == PlaceOf(UndoTarget(r.ops[op])))
            else n in f.loc && f.loc[n] == r.loc[n]
  {
    hide UndoAll, Swap;
    assert OpValid(r.ops[op]);
  }

  lemma FinishCountsPods(r: State, op: int, later: int)
    requires Inv(r) && Enabled(r, Finish(op, later))
    ensures |PodsOf(Finished(r, op, later).meta, r.ops[op].tenant)| ==
              |PodsOf(r.meta, r.ops[op].tenant)| +
              if r.ops[op].kind == Removing then |Existing(r.meta, r.ops[op].undo)| else 0
  {
    var o := r.ops[op];
    forall n | n in o.undo ensures n in r.meta.info && Nowhere(r.meta, n) {
      UndoIsHeld(r, op, n);
      HeldByNobody(r, n);
    }
    UndoCountsPods(r.meta, o, o.undo, later);
    SwapKeepsPods(UndoAll(r.meta, o, o.undo, later), o.tenant);
    hide UndoAll, PodsOf, Swap, Nowhere;
  }

  lemma SwapKeepsPods(m: Meta, t: string)
    ensures PodsOf(Swap(m, t, Resuming, Resumed), t) == PodsOf(m, t)
  {
  }

  // ---------------------------------------------------------------------------------------------
  // An operation run in place is an isolated operation of the protocol

  function EventsOf(answered: seq<string>, replyOf: string -> Reply): seq<Happening> {
    seq(|answered|, i requires 0 <= i < |answered| => Answered(answered[i], replyOf(answered[i])))
  }

  lemma ReplyMeta(s: State, o: Op, op: int, pod: string, reply: Reply, now: int)
    requires op in s.ops && s.ops[op].kind == o.kind && s.ops[op].tenant == o.tenant
    ensures RepliedTo(s, op, pod, reply, now).meta == ReplyOne(s.meta, o, pod, reply, now)
  {
    hide PutAt, PutWarmed, Correct;
  }

  lemma ReplyUndo(s: State, op: int, pod: string, reply: Reply, now: int)
    requires op in s.ops
    ensures var o := RepliedTo(s, op, pod, reply, now).ops[op];
            o == s.ops[op].(done := o.done, undo := s.ops[op].undo + if reply.GrpcError? then [pod] else [])
  {
    hide PutAt, PutWarmed, Correct;
  }

  lemma {:induction false} RepliesMeta(s: State, op: int, answered: seq<string>, replyOf: string -> Reply, now: int)
    requires op in s.ops
    ensures var r := AfterReplies(s, op, EventsOf(answered, replyOf), now);
            && r.meta == ReplyAll(s.meta, s.ops[op], answered, replyOf, now)
            && r.ops[op] == s.ops[op].(done := r.ops[op].done, undo := s.ops[op].undo + Failed(answered, replyOf))
  {
    hide RepliedTo, ReplyOne;
    if answered != [] {
      var last := answered[|answered| - 1];
      var rest := answered[..|answered| - 1];
      RepliesMeta(s, op, rest, replyOf, now);
      assert EventsOf(answered, replyOf) == EventsOf(rest, replyOf) + [Answered(last, replyOf(last))];
      AfterOneMore(s, op, EventsOf(rest, replyOf), Answered(last, replyOf(last)), now);
      var r := AfterReplies(s, op, EventsOf(rest, replyOf), now);
      ReplyMeta(r, s.ops[op], op, last, replyOf(last), now);
      ReplyUndo(r, op, last, replyOf(last), now);
    }
  }

  lemma EndMeta(r: State, o: Op, op: int, now: int)
    requires op in r.ops && r.ops[op] == o.(done := r.ops[op].done)
    ensures Finished(r, op, now).meta == Ended(r.meta, o, now)
  {
    hide Swap, UndoOne;
    UndoAlike(r.meta, r.ops[op], o, o.undo, now);
  }

  lemma {:induction false} UndoAlike(m: Meta, o: Op, o2: Op, undo: seq<string>, now: int)
    requires o.kind == o2.kind && o.tenant == o2.tenant
    ensures UndoAll(m, o, undo, now) == UndoAll(m, o2, undo, now)
  {
    if undo != [] { UndoAlike(m, o, o2, undo[..|undo| - 1], now); }
  }

  lemma AnsweredOnce(o: Op, answered: seq<string>, replyOf: string -> Reply)
    requires NoDup(o.taken) && o.done == map[] && multiset(answered) == multiset(o.taken)
    ensures AllAnswered(o, EventsOf(answered, replyOf))
  {
    NoDupCounts(answered);
    NoDupCounts(o.taken);
    var events := EventsOf(answered, replyOf);
    forall n ensures n in answered <==> n in o.taken {
      assert n in multiset(answered) <==> n in multiset(o.taken);
    }
    forall n | n in o.taken ensures Among(events, n) {
      var i :| 0 <= i < |answered| && answered[i] == n;
      assert events[i].pod == n;
    }
  }

  // What addPodIntoTenant and removePodFromTenant do in place, with the calls answered in any order, is
  // what the protocol's begin, replies and finish do; so the accounts above hold of them.
  lemma InPlaceIsIsolated(s: State, op: int, answered: seq<string>, replyOf: string -> Reply, now: int)
    requires Inv(s) && Enabled(s, Begin(op, now))
    requires TenantOf(s.meta, s.ops[op].tenant).state == Expected(s.ops[op])
    requires op in Begun(s, op, now).ops && multiset(answered) == multiset(Begun(s, op, now).ops[op].taken)
    ensures var q := s.ops[op];
            var events := EventsOf(answered, replyOf);
            && Isolated(s, op, events, now)
            && Finished(AfterReplies(Begun(s, op, now), op, events, now), op, now).meta ==
                 if q.kind == Adding then AfterAdd(s.meta, q.tenant, q.want, q.lifecycle, answered, replyOf, now)
                 else AfterRemove(s.meta, q.tenant, q.want, q.lifecycle, answered, replyOf, now)
  {
    hide Inv, Finished, Ended, ReplyAll, AfterReplies, AllAnswered;
    var b := Begun(s, op, now);
    var events := EventsOf(answered, replyOf);
    BeginKeeps(s, op, now);
    BegunRuns(s, op, now);
    BegunDistinct(b, op);
    AnsweredOnce(b.ops[op], answered, replyOf);
    RepliesMeta(b, op, answered, replyOf, now);
    BegunAs(s, op, now);
    EndMeta(AfterReplies(b, op, events, now), b.ops[op].(undo := Failed(answered, replyOf)), op, now);
  }

  lemma BegunAs(s: State, op: int, now: int)
    requires Inv(s) && Enabled(s, Begin(op, now))
    requires TenantOf(s.meta, s.ops[op].tenant).state == Expected(s.ops[op])
    ensures var q := s.ops[op];
            var b := Begun(s, op, now);
            && op in b.ops
            && b.ops[op] == (if q.kind == Adding then AddOp(s.meta, q.tenant, q.want, q.lifecycle)
                             else RemoveOp(s.meta, q.tenant, q.want, q.lifecycle))
            && b.meta == if q.kind == Adding then TakeWarmed(s.meta, q.tenant, q.want, now)
                         else
                           var popped := Pop(s.meta, q.tenant, b.ops[op].want, now);
                           if q.lifecycle then Swap(popped, q.tenant, Pausing, Paused) else popped
  {
    assert OpValid(s.ops[op]) && s.ops[op].done == map[];
    NoMembers(s.ops[op].undo);
    hide Inv, TakeWarmed, Pop, Swap, Popped, Warmed;
  }
}
