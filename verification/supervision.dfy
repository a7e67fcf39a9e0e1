// What a supervisor's word does while the controller runs: the answer to a scan, and the reply to a call.
module Supervision {
  import opened Wrappers
  import opened NameLists
  import opened MetaSpec
  import opened MetaMoves
  import opened Protocol
  import opened Ownership
  import opened Lifecycle

  // Where a pod can be filed; the empty name is the pool.
  predicate Servable(m: Meta, t: string) {
    t == "" || MayServe(m, t)
  }

  // The answer contradicts the books about a pod that some tenant holds.
  predicate Contradicts(s: State, pod: string, a: Answer) {
    && pod in s.loc && s.loc[pod].InTenant? && !a.isUnassigning
    && (s.loc[pod].tenant != a.tenant || InfoOf(s.meta, pod).stime != a.stime)
  }

  // The books follow the supervisor: the pod is listed by the tenant named and by nobody else, since the time
  // given, that tenant is Resumed, and nothing else has changed its list, its record or its state.
  ghost predicate Follows(m: Meta, m2: Meta, pod: string, t: string, stime: int) {
    && (forall u :: pod in PodsOf(m2, u) <==> u == t && Servable(m, t))
    && (Servable(m, t) ==> InfoOf(m2, pod).stime == stime)
    && (forall u :: TenantOf(m2, u).state == if u == t && MayServe(m, t) then Resumed else TenantOf(m, u).state)
    && (forall n, u :: n != pod ==> (n in PodsOf(m2, u) <==> n in PodsOf(m, u)))
    && (forall n :: n != pod ==> InfoOf(m2, n) == InfoOf(m, n))
    && m2.registry == m.registry
  }

  // The pod, and nothing but the pod, is where the supervisor said; nowhere if that cannot be served.
  ghost predicate Obeyed(s: State, s2: State, pod: string, t: string, stime: int) {
    && Follows(s.meta, s2.meta, pod, t, stime)
    && s2.loc == s.loc[pod := if !Servable(s.meta, t) then Wild else if t == "" then InPool else InTenant(t)]
  }

  lemma CorrectionObeys(s: State, pod: string, t: string, stime: int, now: int)
    requires Inv(s) && pod in s.meta.info
    ensures Obeyed(s, CorrectedTo(s, pod, t, stime, now), pod, t, stime)
  {
    BackPointerFinds(s, pod);
    CorrectionFollows(s.meta, pod, t, stime, now);
    hide Inv, Correct, Follows;
  }

  lemma CorrectionFollows(m: Meta, pod: string, t: string, stime: int, now: int)
    requires Lists(m) && Found(m, pod)
    ensures Follows(m, Correct(m, pod, t, stime, now), pod, t, stime)
  {
    hide Correct, Moved, PodsOf, Found, Lists, InfoOf;
    CorrectMoves(m, pod, t, stime, now);
    OnlyOneMoved(m, Correct(m, pod, t, stime, now), pod, if HasTarget(m, t) then Some(t) else None);
    CorrectStates(m, pod, t, stime, now);
    if Servable(m, t) { CorrectionRecords(m, pod, t, stime, now); }
  }

  lemma OnlyOneMoved(m: Meta, m2: Meta, pod: string, to: Option<string>)
    requires Moved(m, m2, {pod}, to)
    ensures forall n, u :: n != pod ==> (n in PodsOf(m2, u) <==> n in PodsOf(m, u))
    ensures forall n :: n != pod ==> InfoOf(m2, n) == InfoOf(m, n)
    ensures forall u :: pod in PodsOf(m2, u) <==> to == Some(u)
  {
    var pods := {pod};
    OthersStay(m, m2, pods, to);
    hide Moved, PodsOf, InfoOf;
    assert pod in pods;
    forall n, u | n != pod ensures n in PodsOf(m2, u) <==> n in PodsOf(m, u) { assert n !in pods; }
    forall n | n != pod ensures InfoOf(m2, n) == InfoOf(m, n) { assert n !in pods; }
  }

  lemma OthersStay(m: Meta, m2: Meta, pods: set<string>, to: Option<string>)
    requires Moved(m, m2, pods, to)
    ensures forall n, u :: n !in pods ==> (n in PodsOf(m2, u) <==> n in PodsOf(m, u))
    ensures forall n :: n !in pods ==> InfoOf(m2, n) == InfoOf(m, n)
    ensures forall n, u :: n in pods ==> (n in PodsOf(m2, u) <==> to == Some(u))
  {
    hide PodsOf, NoDup;
  }

  lemma CorrectionRecords(m: Meta, pod: string, t: string, stime: int, now: int)
    requires Servable(m, t)
    ensures InfoOf(Correct(m, pod, t, stime, now), pod).stime == stime
    ensures InfoOf(Correct(m, pod, t, stime, now), pod).tenant == t
  {
    hide Append, Without;
  }

  // While the controller runs, a scan corrects exactly the pods of tenants that the supervisor contradicts.
  // Any other answer, and any answer about a pod of the pool, changes nothing.
  lemma ScanCorrects(s: State, pod: string, a: Answer, now: int)
    requires Inv(s) && s.ready && pod in s.meta.info
    ensures Enabled(s, ScanAnswered(pod, a, now))
    ensures var s2 := Apply(s, ScanAnswered(pod, a, now));
            if Contradicts(s, pod, a) then Obeyed(s, s2, pod, a.tenant, a.stime) else s2 == s
  {
    assert s.meta.info[pod].tenant == TenantName(s.loc, pod);
    TenantsHaveNames(s, pod);
    if Contradicts(s, pod, a) { CorrectionObeys(s, pod, a.tenant, a.stime, now); }
    hide Obeyed, Inv, CorrectedTo;
  }

  lemma TenantsHaveNames(s: State, pod: string)
    requires Inv(s)
    ensures pod in s.loc && s.loc[pod].InTenant? ==> s.loc[pod].tenant != WARM
  {
    if pod in s.loc && s.loc[pod].InTenant? { assert Holds(s, pod, s.loc[pod]); }
  }

  // Hearing the same answer a second time changes nothing more.
  lemma SameAnswerAgain(s: State, pod: string, a: Answer, now: int, later: int)
    requires Inv(s) && s.ready && pod in s.meta.info
    ensures var s2 := Apply(s, ScanAnswered(pod, a, now));
            && Enabled(s2, ScanAnswered(pod, a, later)) && Apply(s2, ScanAnswered(pod, a, later)) == s2
  {
    var s2 := Apply(s, ScanAnswered(pod, a, now));
    ScanCorrects(s, pod, a, now);
    ScanKeeps(s, pod, a, now);
    if Contradicts(s, pod, a) {
      BackPointerFinds(s, pod);
      CorrectMoves(s.meta, pod, a.tenant, a.stime, now);
    }
    hide Correct, Inv;
    assert s2.ready && pod in s2.meta.info;
    ScanCorrects(s2, pod, a, later);
  }

  // The reply to a call that was awaited: a success of an addition files the pod with the tenant since the
  // time the supervisor gave, a success of a removal files it in the pool and withdraws the tenant's
  // shortfall, a correction is obeyed, and a pod that is being unassigned waits under the tenant named.
  lemma ReplyObeyed(s: State, op: int, pod: string, reply: Reply, now: int)
    requires Inv(s) && Enabled(s, Replied(op, pod, reply, now))
    ensures var o := s.ops[op];
            var s2 := Apply(s, Replied(op, pod, reply, now));
            match reply
            case Ok(stime) =>
              if o.kind == Adding
              then pod in PodsOf(s2.meta, o.tenant) && InfoOf(s2.meta, pod).stime == stime
              else pod in PodsOf(s2.meta, WARM) &&
                   s2.meta.pool.results == s.meta.pool.results[o.tenant := OpResult(0, now)]
            case GrpcError => s2.meta == s.meta && s2.delayed == s.delayed
            case AppError(t, stime, isUnassigning) =>
              if isUnassigning then s2.meta == s.meta && s2.delayed == s.delayed[pod := t]
              else Obeyed(s, s2, pod, t, stime)
  {
    HeldWhere(s, pod);
    match reply
    case Ok(_) => OpsHaveNames(s, op); hide Inv;
    case GrpcError =>
    case AppError(t, stime, isUnassigning) =>
      if !isUnassigning { CorrectionObeys(s, pod, t, stime, now); }
      hide Obeyed, Inv, Correct;
  }

  lemma OpsHaveNames(s: State, op: int)
    requires Inv(s) && op in s.ops
    ensures s.ops[op].tenant in s.meta.tenants && s.ops[op].tenant != WARM
  {
  }

  // ---------------------------------------------------------------------------------------------
  // Who lists a pod

  // Pods that the step takes out of their container.
  ghost predicate Taken(s: State, e: Step, n: string)
    requires Enabled(s, e)
  {
    match e
    case Begin(op, _) => op in Apply(s, e).ops && n in Apply(s, e).ops[op].taken
    case ShrinkAsked(_, _) => Apply(s, e).warming.Shrinking? && n in Apply(s, e).warming.chosen
    case _ => false
  }

  // Whether container u (the pool for the empty name) lists pod n after a step. Pods arrive in the pool and
  // come back to it from a removal, a delay or a failed shrink; a success or a correction files a pod with
  // its tenant; the pods of failed calls go back where they came from if they still exist.
  ghost predicate Listing(s: State, e: Step, n: string, u: string, listed: bool)
    requires Enabled(s, e)
  {
    var before := n in PodsOf(s.meta, u);
    match e
    case PodEvent(pod, ip, _) =>
      if n == pod && ip != "" && (pod !in s.meta.registry || InfoOf(s.meta, pod).ip == "") then listed == (u == "")
      else listed == before
    case PodGone(pod, _) => listed == (before && !(n == pod && pod in s.meta.registry))
    case ScanAnswered(pod, a, _) =>
      if n == pod && Corrects(s, pod, a) then listed == (u == a.tenant && Servable(s.meta, u)) else listed == before
    case Begin(_, _) => listed == (before && !Taken(s, e, n))
    case Replied(op, pod, reply, _) =>
      if n != pod then listed == before
      else (
        match reply
        case Ok(_) => listed == (u == if s.ops[op].kind == Adding then s.ops[op].tenant else "")
        case GrpcError => !listed
        case AppError(t, _, isUnassigning) => listed == (!isUnassigning && u == t && Servable(s.meta, t))
      )
    case Finish(op, _) =>
      if n !in s.ops[op].undo then listed == before
      else listed == (n in s.meta.registry && u == if s.ops[op].kind == Adding then "" else s.ops[op].tenant)
    case DelayOver(pod, _) => if n == pod then listed == (u == "") else listed == before
    case ShrinkAsked(_, _) => listed == (before && !Taken(s, e, n))
    case ShrinkAnswered(committed, _) =>
      if n in s.warming.chosen then listed == (!committed && u == "") else listed == before
    case _ => listed == before
  }

  lemma StepLists(s: State, e: Step, n: string, u: string)
    requires Inv(s) && Enabled(s, e)
    ensures Listing(s, e, n, u, n in PodsOf(Apply(s, e).meta, u))
  {
    StepKeeps(s, e);
    hide Apply, Listing;
    ListedIff(s, n, u);
    ListedIff(Apply(s, e), n, u);
    hide Inv, PodsOf;
    ListedByPlace(s, e, n, u, n in PodsOf(s.meta, u), n in PodsOf(Apply(s, e).meta, u));
  }

  // A container lists a pod exactly if the pod's place says so.
  ghost predicate PlacedIn(s: State, n: string, u: string) {
    n in s.loc && s.loc[n] == if u == "" then InPool else InTenant(u)
  }

  lemma ListedIff(s: State, n: string, u: string)
    requires Inv(s)
    ensures n in PodsOf(s.meta, u) <==> PlacedIn(s, n, u)
  {
    if n in PodsOf(s.meta, u) { ListedMeansLocated(s, n, u); }
    assert Holds(s, n, PlaceOf(u)) <==> n in s.loc && s.loc[n] == PlaceOf(u);
  }

  lemma ListedByPlace(s: State, e: Step, n: string, u: string, before: bool, listed: bool)
    requires Inv(s) && Enabled(s, e)
    requires before == (n in PodsOf(s.meta, u)) && before == PlacedIn(s, n, u) && listed == PlacedIn(Apply(s, e), n, u)
    ensures Listing(s, e, n, u, listed)
  {
    hide Inv, PlacedIn, Apply, Listing, PodsOf;
    if e.Replied? { ReplyLists(s, e, n, u, before, listed); }
    else if e.Begin? { BeginLists(s, e, n, u, before, listed); }
    else if e.Finish? { FinishLists(s, e, n, u, before, listed); }
    else if e.PodEvent? || e.PodGone? || e.ScanAnswered? { PodLists(s, e, n, u, before, listed); }
    else { PoolLists(s, e, n, u, before, listed); }
  }

  lemma ReplyLists(s: State, e: Step, n: string, u: string, before: bool, listed: bool)
    requires Inv(s) && Enabled(s, e) && e.Replied?
    requires before == (n in PodsOf(s.meta, u)) && before == PlacedIn(s, n, u) && listed == PlacedIn(Apply(s, e), n, u)
    ensures Listing(s, e, n, u, listed)
  {
    HeldWhere(s, n);
    OpsHaveNames(s, e.op);
    hide Inv, PodsOf, Correct, PutBack, PutWarmed, UpdatePod, Unregister, UndoAll, Swap, TakeWarmed, Pop, PutAt;
    hide Warmed, Popped;
  }

  lemma BeginLists(s: State, e: Step, n: string, u: string, before: bool, listed: bool)
    requires Inv(s) && Enabled(s, e) && e.Begin?
    requires before == (n in PodsOf(s.meta, u)) && before == PlacedIn(s, n, u) && listed == PlacedIn(Apply(s, e), n, u)
    ensures Listing(s, e, n, u, listed)
  {
    hide Inv, PodsOf, Correct, PutBack, PutWarmed, UpdatePod, Unregister, UndoAll, Swap, TakeWarmed, Pop, PutAt;
    hide Warmed, Popped, Expected, TenantOf;
  }

  lemma FinishLists(s: State, e: Step, n: string, u: string, before: bool, listed: bool)
    requires Inv(s) && Enabled(s, e) && e.Finish?
    requires before == (n in PodsOf(s.meta, u)) && before == PlacedIn(s, n, u) && listed == PlacedIn(Apply(s, e), n, u)
    ensures Listing(s, e, n, u, listed)
  {
    OpsHaveNames(s, e.op);
    if n in s.ops[e.op].undo { UndoIsHeld(s, e.op, n); }
    hide Inv, PodsOf, Correct, PutBack, PutWarmed, UpdatePod, Unregister, UndoAll, Swap, TakeWarmed, Pop, PutAt;
    hide Warmed, Popped;
  }

  lemma PodLists(s: State, e: Step, n: string, u: string, before: bool, listed: bool)
    requires Inv(s) && Enabled(s, e) && (e.PodEvent? || e.PodGone? || e.ScanAnswered?)
    requires before == (n in PodsOf(s.meta, u)) && before == PlacedIn(s, n, u) && listed == PlacedIn(Apply(s, e), n, u)
    ensures Listing(s, e, n, u, listed)
  {
    hide Inv, PodsOf, Correct, PutBack, PutWarmed, UpdatePod, Unregister, UndoAll, Swap, TakeWarmed, Pop, PutAt;
    hide Warmed, Popped;
  }

  lemma PoolLists(s: State, e: Step, n: string, u: string, before: bool, listed: bool)
    requires Inv(s) && Enabled(s, e)
    requires !(e.Replied? || e.Begin? || e.Finish? || e.PodEvent? || e.PodGone? || e.ScanAnswered?)
    requires before == (n in PodsOf(s.meta, u)) && before == PlacedIn(s, n, u) && listed == PlacedIn(Apply(s, e), n, u)
    ensures Listing(s, e, n, u, listed)
  {
    HeldWhere(s, n);
    hide Inv, PodsOf, Correct, PutBack, PutWarmed, UpdatePod, Unregister, UndoAll, Swap, TakeWarmed, Pop, PutAt;
    hide Warmed, Popped;
  }

  // ---------------------------------------------------------------------------------------------
  // Who changes a start time

  // The start time of pod n after a step: what a supervisor said last, or the moment the pod was taken.
  // Coming back, to the pool or to the tenant, keeps it.
  ghost predicate Dates(s: State, e: Step, n: string, st: int)
    requires Enabled(s, e)
  {
    var before := InfoOf(s.meta, n).stime;
    match e
    case PodEvent(pod, _, _) => st == if n == pod && pod !in s.meta.registry then 0 else before
    case Begin(_, now) => st == if Taken(s, e, n) then now else before
    case ShrinkAsked(_, now) => st == if Taken(s, e, n) then now else before
    case PodGone(pod, now) => st == if n == pod && pod in s.meta.registry then now else before
    case Replied(op, pod, reply, _) =>
      if n != pod then st == before
      else (
        match reply
        case Ok(stime) => st == if s.ops[op].kind == Adding then stime else before
        case GrpcError => st == before
        case AppError(t, stime, isUnassigning) =>
          if isUnassigning then st == before else Servable(s.meta, t) ==> st == stime
      )
    case ScanAnswered(pod, a, _) =>
      if n != pod || !Corrects(s, pod, a) then st == before else Servable(s.meta, a.tenant) ==> st == a.stime
    case _ => st == before
  }

  lemma StepDates(s: State, e: Step, n: string)
    requires Inv(s) && Enabled(s, e)
    ensures Dates(s, e, n, InfoOf(Apply(s, e).meta, n).stime)
  {
    hide Inv, Begun, RepliedTo, Correct, PutBack, PutWarmed, UpdatePod, Unregister, UndoAll, Swap, TakeWarmed, Warmed;
    hide Protocol.Move, Settle, InHands, InfoOf, PutAt;
    match e
    case Begin(op, now) => BeginDates(s, op, now, n);
    case Replied(op, pod, reply, now) => ReplyDates(s, op, pod, reply, now, n);
    case Finish(op, now) =>
      UndoKeepsDates(s.meta, s.ops[op], s.ops[op].undo, now, n);
      SwapKeepsDates(UndoAll(s.meta, s.ops[op], s.ops[op].undo, now), s.ops[op].tenant, Resuming, Resumed, n);
    case ShrinkAnswered(_, now) => PutBackKeepsDates(s.meta, s.warming.chosen, now, n);
    case ShrinkAsked(cnt, now) => TakeDates(s.meta, WARM, cnt, now, n);
    case PodEvent(pod, ip, now) => EventDates(s.meta, pod, ip, now, n);
    case PodGone(pod, now) => UnregisterDates(s.meta, pod, now, n);
    case ScanAnswered(pod, a, now) => CorrectDates(s.meta, pod, a.tenant, a.stime, now, n);
    case DelayOver(pod, now) => PoolKeepsDates(s.meta, s.delayed[pod], pod, false, now, n);
    case _ => OtherDates(s, e, n);
  }

  lemma OtherDates(s: State, e: Step, n: string)
    requires Enabled(s, e)
    requires e.SetupTenant? || e.BecomeReady? || e.AskPause? || e.AskResume? || e.AskResize? || e.GrowAsked? ||
             e.GrowAnswered?
    ensures InfoOf(Apply(s, e).meta, n) == InfoOf(s.meta, n)
  {
  }

  lemma BeginDates(s: State, op: int, now: int, n: string)
    requires Enabled(s, Begin(op, now))
    ensures var b := Begun(s, op, now);
            InfoOf(b.meta, n).stime ==
              if op in b.ops && n in b.ops[op].taken then now else InfoOf(s.meta, n).stime
  {
    hide TakeWarmed, Pop, Swap, Popped, Warmed, PodsOf, InfoOf, Protocol.Move, TenantOf, Expected;
    var o := s.ops[op];
    if o.kind == Adding {
      TakeDates(s.meta, o.tenant, o.want, now, n);
    } else {
      var cnt := if o.lifecycle then |PodsOf(s.meta, o.tenant)| else o.want;
      PopDates(s.meta, o.tenant, cnt, now, n);
      SwapKeepsDates(Pop(s.meta, o.tenant, cnt, now), o.tenant, Pausing, Paused, n);
    }
  }

  lemma TakeDates(m: Meta, t: string, cnt: nat, now: int, n: string)
    ensures InfoOf(TakeWarmed(m, t, cnt, now), n).stime == if n in Warmed(m, cnt) then now else InfoOf(m, n).stime
  {
  }

  lemma PopDates(m: Meta, t: string, cnt: nat, now: int, n: string)
    ensures InfoOf(Pop(m, t, cnt, now), n).stime == if n in Popped(m, t, cnt) then now else InfoOf(m, n).stime
  {
    hide Popped;
  }

  lemma SwapKeepsDates(m: Meta, t: string, from: TenantState, to: TenantState, n: string)
    ensures InfoOf(Swap(m, t, from, to), n) == InfoOf(m, n)
  {
  }

  lemma PoolKeepsDates(m: Meta, from: string, pod: string, isNew: bool, now: int, n: string)
    ensures InfoOf(PutWarmed(m, from, pod, isNew, now), n).stime == InfoOf(m, n).stime
  {
    hide Append;
  }

  lemma FileKeepsDates(m: Meta, pod: string, t: string, n: string)
    ensures InfoOf(Put(m, pod, t), n).stime == InfoOf(m, n).stime
  {
    hide Append;
  }

  lemma {:induction false} UndoKeepsDates(m: Meta, o: Op, undo: seq<string>, now: int, n: string)
    ensures InfoOf(UndoAll(m, o, undo, now), n).stime == InfoOf(m, n).stime
  {
    if undo != [] {
      var last, rest := undo[|undo| - 1], undo[..|undo| - 1];
      UndoKeepsDates(m, o, rest, now, n);
      PoolKeepsDates(UndoAll(m, o, rest, now), o.tenant, last, false, now, n);
      FileKeepsDates(UndoAll(m, o, rest, now), last, o.tenant, n);
      hide PutWarmed, Put, InfoOf;
    }
  }

  lemma {:induction false} PutBackKeepsDates(m: Meta, pods: seq<string>, now: int, n: string)
    ensures InfoOf(PutBack(m, pods, now), n).stime == InfoOf(m, n).stime
  {
    if pods != [] {
      PutBackKeepsDates(m, pods[..|pods| - 1], now, n);
      PoolKeepsDates(PutBack(m, pods[..|pods| - 1], now), WARM, pods[|pods| - 1], false, now, n);
      hide PutWarmed, InfoOf;
    }
  }

  lemma EventDates(m: Meta, pod: string, ip: string, now: int, n: string)
    ensures InfoOf(UpdatePod(m, pod, ip, now), n).stime ==
              if n == pod && pod !in m.registry then 0 else InfoOf(m, n).stime
  {
    hide Append;
  }

  lemma UnregisterDates(m: Meta, pod: string, now: int, n: string)
    ensures InfoOf(Unregister(m, pod, now), n).stime == if n == pod then now else InfoOf(m, n).stime
  {
    hide Without;
  }

  lemma CorrectDates(m: Meta, pod: string, t: string, stime: int, now: int, n: string)
    ensures n != pod ==> InfoOf(Correct(m, pod, t, stime, now), n).stime == InfoOf(m, n).stime
    ensures n == pod && Servable(m, t) ==> InfoOf(Correct(m, pod, t, stime, now), n).stime == stime
  {
    hide Append, Without;
  }

  lemma AssignDates(m: Meta, pod: string, t: string, stime: int, n: string)
    ensures InfoOf(PutAt(m, pod, t, stime), n).stime == if n == pod then stime else InfoOf(m, n).stime
  {
    hide Append;
  }

  lemma ReplyDates(s: State, op: int, pod: string, reply: Reply, now: int, n: string)
    requires Enabled(s, Replied(op, pod, reply, now))
    ensures Dates(s, Replied(op, pod, reply, now), n, InfoOf(RepliedTo(s, op, pod, reply, now).meta, n).stime)
  {
    var o := s.ops[op];
    match reply
    case Ok(stime) =>
      AssignDates(s.meta, pod, o.tenant, stime, n);
      PoolKeepsDates(s.meta, o.tenant, pod, false, now, n);
      hide PutAt, PutWarmed, InfoOf;
    case GrpcError =>
    case AppError(t, stime, isUnassigning) =>
      CorrectDates(s.meta, pod, t, stime, now, n);
      hide Correct, InfoOf;
  }
}
