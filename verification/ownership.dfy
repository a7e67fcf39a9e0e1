// Every pod with an address is in exactly one place, over every run of the protocol.
module Ownership {
  import opened Wrappers
  import opened NameLists
  import opened MetaSpec
  import opened MetaMoves
  import opened Protocol

  // The containers, operations and sets themselves; loc plays no part.
  ghost predicate Holds(s: State, n: string, p: Place) {
    match p
    case InPool => n in PodsOf(s.meta, WARM)
    case InTenant(t) => t in s.meta.tenants && n in PodsOf(s.meta, t)
    case InOperation(op) => op in s.ops && s.ops[op].Holds(n)
    case InDelay => n in s.delayed
    case InShrink => s.warming.Shrinking? && n in s.warming.chosen
    case Condemned => n in s.condemned
    case Wild => n in s.wild
  }

  predicate Container(p: Place) {
    p.InPool? || p.InTenant?
  }

  // loc says where each pod is, and nothing else holds it.
  ghost predicate Located(s: State) {
    forall n, p :: Holds(s, n, p) <==> n in s.loc && s.loc[n] == p
  }

  ghost predicate OpValid(o: Op) {
    && NoDup(o.taken)
    && NoDup(o.undo)
    && (forall n :: n in o.done ==> n in o.taken)
    && (forall n :: n in o.undo <==> n in o.done && o.done[n] == Undone)
    && (o.phase == Queued ==> o.taken == [])
  }

  // No list repeats a pod, and operations work on known tenants.
  ghost predicate ListsValid(s: State) {
    && Lists(s.meta)
    && (s.warming.Shrinking? ==> NoDup(s.warming.chosen))
    && (forall op :: op in s.ops ==> OpValid(s.ops[op]) && s.ops[op].tenant in s.meta.tenants)
  }

  function TenantName(loc: map<string, Place>, n: string): string {
    if n in loc && loc[n].InTenant? then loc[n].tenant else WARM
  }

  // The back-pointer names the tenant that holds the pod, and is empty when none does.
  ghost predicate BackPointers(s: State) {
    forall n :: n in s.meta.info ==> s.meta.info[n].tenant == TenantName(s.loc, n)
  }

  // Registered pods with an address are placed; a placed pod that is not registered is a ghost.
  ghost predicate Registered(s: State) {
    && (forall n :: n in s.meta.registry ==> n in s.meta.info && n !in s.ghosts)
    && (forall n :: n in s.meta.registry ==> (s.meta.info[n].ip != "" <==> n in s.loc))
    && (forall n :: n in s.loc ==>
        n in s.meta.info && s.meta.info[n].ip != "" && (n in s.meta.registry || n in s.ghosts))
    && (forall n :: n in s.ghosts ==> n in s.meta.info)
  }

  // Nothing runs before startup is over.
  ghost predicate Quiet(s: State) {
    !s.ready ==> s.ops == map[] && s.delayed == map[] && s.warming == Idle && s.condemned == {}
  }

  ghost predicate Inv(s: State) {
    Located(s) && ListsValid(s) && BackPointers(s) && Registered(s) && Quiet(s)
  }

  lemma StartHolds(mode: RunMode, softLimit: nat)
    ensures Inv(Start(mode, softLimit))
    ensures Start(mode, softLimit).meta == Meta(mode, map[], Pool([], softLimit, map[]), {}, map[])
  {
  }

  // ---------------------------------------------------------------------------------------------
  // Moving pods from place to place

  function ToOf(dest: Option<Place>): Option<string> {
    if dest == Some(InPool) then Some(WARM)
    else if dest.Some? && dest.value.InTenant? then Some(dest.value.tenant)
    else None
  }

  ghost predicate LocMoved(loc: map<string, Place>, loc2: map<string, Place>, pods: set<string>, dest: Option<Place>) {
    && loc2.Keys == (if dest.Some? then loc.Keys + pods else loc.Keys - pods)
    && (forall n :: n in loc2 ==>
        loc2[n] == if n in pods && dest.Some? then dest.value else if n in loc then loc[n] else Wild)
  }

  // Outside the containers, the pods leave every place but dest and the others stay.
  ghost predicate HandsMoved(s: State, s2: State, pods: set<string>, dest: Option<Place>) {
    forall n, p :: !Container(p) ==>
      (Holds(s2, n, p) <==> if n in pods then dest == Some(p) else Holds(s, n, p))
  }

  lemma Relocates(s: State, s2: State, pods: set<string>, dest: Option<Place>)
    requires Located(s) && BackPointers(s) && Lists(s.meta)
    requires Moved(s.meta, s2.meta, pods, ToOf(dest)) && dest != Some(InTenant(WARM))
    requires HandsMoved(s, s2, pods, dest) && LocMoved(s.loc, s2.loc, pods, dest)
    ensures Located(s2) && BackPointers(s2)
  {
    forall n, p ensures Holds(s2, n, p) <==> n in s2.loc && s2.loc[n] == p {
      assert Holds(s, n, p) <==> n in s.loc && s.loc[n] == p;
      if p.InTenant? && p.tenant != WARM && p.tenant !in s.meta.tenants {
        assert PodsOf(s.meta, p.tenant) == [];
      }
    }
  }

  // What loc says about each kind of holder, spelled out for one pod.
  lemma HeldWhere(s: State, n: string)
    requires Located(s)
    ensures n in s.delayed <==> n in s.loc && s.loc[n] == InDelay
    ensures s.warming.Shrinking? && n in s.warming.chosen <==> n in s.loc && s.loc[n] == InShrink
    ensures n in s.condemned <==> n in s.loc && s.loc[n] == Condemned
    ensures n in s.wild <==> n in s.loc && s.loc[n] == Wild
    ensures forall op :: op in s.ops && s.ops[op].Holds(n) <==> n in s.loc && s.loc[n] == InOperation(op)
  {
    assert Holds(s, n, InDelay) <==> n in s.loc && s.loc[n] == InDelay;
    assert Holds(s, n, InShrink) <==> n in s.loc && s.loc[n] == InShrink;
    assert Holds(s, n, Condemned) <==> n in s.loc && s.loc[n] == Condemned;
    assert Holds(s, n, Wild) <==> n in s.loc && s.loc[n] == Wild;
    forall op ensures op in s.ops && s.ops[op].Holds(n) <==> n in s.loc && s.loc[n] == InOperation(op) {
      assert Holds(s, n, InOperation(op)) <==> n in s.loc && s.loc[n] == InOperation(op);
    }
  }

  // A container lists a pod only where loc says.
  lemma ListedMeansLocated(s: State, n: string, u: string)
    requires Located(s) && Lists(s.meta) && n in PodsOf(s.meta, u)
    ensures n in s.loc && s.loc[n] == PlaceOf(u)
  {
    if u == WARM { assert Holds(s, n, InPool); } else { assert Holds(s, n, InTenant(u)); }
  }

  // Following tenantName finds the container that really holds the pod.
  lemma BackPointerFinds(s: State, pod: string)
    requires Located(s) && BackPointers(s) && Lists(s.meta) && pod in s.meta.info
    ensures Found(s.meta, pod)
  {
    var owner := s.meta.info[pod].tenant;
    forall u | u != owner ensures pod !in PodsOf(s.meta, u) {
      if pod in PodsOf(s.meta, u) { ListedMeansLocated(s, pod, u); }
    }
    if owner != WARM { assert Holds(s, pod, InTenant(owner)); }
  }

  lemma ListedOnce(s: State, n: string, t: string)
    requires Located(s) && Lists(s.meta) && (n in s.loc ==> s.loc[n] == PlaceOf(t) || !Container(s.loc[n]))
    ensures OnlyIn(s.meta, n, t)
  {
    forall u | u != t ensures n !in PodsOf(s.meta, u) {
      if n in PodsOf(s.meta, u) { ListedMeansLocated(s, n, u); }
    }
  }

  // Placed pods stay registered or ghosts when they only change place.
  lemma StayRegistered(s: State, s2: State, pods: set<string>, dest: Option<Place>)
    requires Registered(s) && Moved(s.meta, s2.meta, pods, ToOf(dest)) && LocMoved(s.loc, s2.loc, pods, dest)
    requires s2.meta.registry == s.meta.registry && s2.ghosts == s.ghosts
    requires dest.Some? && forall n :: n in pods ==> n in s.loc
    ensures Registered(s2)
  {
    hide PodsOf, NoDup;
  }

  // ---------------------------------------------------------------------------------------------
  // One lemma per kind of step

  lemma SetupKeeps(s: State, t: string, st: TenantState)
    requires Inv(s) && t != WARM
    ensures Inv(s.(meta := Setup(s.meta, t, st)))
  {
    var s2 := s.(meta := Setup(s.meta, t, st));
    assert forall u :: PodsOf(s2.meta, u) == PodsOf(s.meta, u);
    forall n, p ensures Holds(s2, n, p) <==> Holds(s, n, p) {}
  }

  // No operation holds the pod any more, and operations hold the same other pods as before.
  ghost predicate OpsReleased(s: State, s2: State, pod: string) {
    && s2.ops.Keys == s.ops.Keys
    && (forall op, n :: op in s.ops ==> (s2.ops[op].Holds(n) <==> n != pod && s.ops[op].Holds(n)))
  }

  // A correction places a pod that sits in a container, is wild, or was just let go by an operation.
  lemma CorrectionHands(s: State, s1: State, pod: string, t: string, stime: int, now: int)
    requires Located(s) && OpsReleased(s, s1, pod) && s1 == s.(ops := s1.ops)
    requires pod in s.loc && (Container(s.loc[pod]) || s.loc[pod] == Wild || s.loc[pod].InOperation?)
    ensures var dest := Some(if HasTarget(s.meta, t) then PlaceOf(t) else Wild);
            && HandsMoved(s, CorrectedTo(s1, pod, t, stime, now), {pod}, dest)
            && LocMoved(s.loc, CorrectedTo(s1, pod, t, stime, now).loc, {pod}, dest)
  {
    HeldWhere(s, pod);
    var target := HasTarget(s.meta, t);
    hide Correct, PodsOf, Located, HasTarget;
    var s2 := CorrectedTo(s1, pod, t, stime, now);
    forall n, p | !Container(p)
      ensures Holds(s2, n, p) <==> if n == pod then !target && p == Wild else Holds(s, n, p) {}
  }

  lemma CorrectionKeeps(s: State, s1: State, pod: string, t: string, stime: int, now: int)
    requires Inv(s) && OpsReleased(s, s1, pod) && s1 == s.(ops := s1.ops)
    requires pod in s.loc && (Container(s.loc[pod]) || s.loc[pod] == Wild || s.loc[pod].InOperation?)
    requires forall op :: op in s1.ops ==> OpValid(s1.ops[op]) && s1.ops[op].tenant in s.meta.tenants
    requires s.ready || s1.ops == map[]
    ensures Inv(CorrectedTo(s1, pod, t, stime, now))
  {
    var s2 := CorrectedTo(s1, pod, t, stime, now);
    var dest := Some(if HasTarget(s.meta, t) then PlaceOf(t) else Wild);
    CorrectionHands(s, s1, pod, t, stime, now);
    BackPointerFinds(s, pod);
    CorrectMoves(s.meta, pod, t, stime, now);
    hide Correct, PodsOf, NoDup, OpValid, Holds;
    Settles(s, s2, {pod}, dest);
  }

  // The common end of a step that moves placed pods: what is left to check is who held them.
  lemma Settles(s: State, s2: State, pods: set<string>, dest: Option<Place>)
    requires Inv(s) && Moved(s.meta, s2.meta, pods, ToOf(dest)) && dest.Some? && dest != Some(InTenant(WARM))
    requires HandsMoved(s, s2, pods, dest) && LocMoved(s.loc, s2.loc, pods, dest)
    requires s2.meta.registry == s.meta.registry && s2.ghosts == s.ghosts
    requires forall n :: n in pods ==> n in s.loc
    requires s2.warming.Shrinking? ==> NoDup(s2.warming.chosen)
    requires forall op :: op in s2.ops ==> OpValid(s2.ops[op]) && s2.ops[op].tenant in s.meta.tenants
    requires Quiet(s2)
    ensures Inv(s2)
  {
    hide PodsOf, NoDup, Holds, OpValid;
    Relocates(s, s2, pods, dest);
    StayRegistered(s, s2, pods, dest);
  }

  // A pod is registered, or gets its first address and joins the pool.
  lemma EventKeeps(s: State, pod: string, ip: string, now: int)
    requires Inv(s) && Enabled(s, PodEvent(pod, ip, now))
    ensures Inv(Evented(s, pod, ip, now))
  {
    var arrives := ip != "" && (pod !in s.meta.registry || InfoOf(s.meta, pod).ip == "");
    if arrives {
      ArrivalKeeps(s, pod, ip, now);
    } else {
      NoArrivalKeeps(s, pod, ip, now);
    }
  }

  lemma NoArrivalKeeps(s: State, pod: string, ip: string, now: int)
    requires Inv(s) && Enabled(s, PodEvent(pod, ip, now))
    requires ip == "" || (pod in s.meta.registry && InfoOf(s.meta, pod).ip != "")
    ensures Inv(Evented(s, pod, ip, now))
  {
    hide NoDup, OpValid, PutWarmed;
    var s2 := Evented(s, pod, ip, now);
    assert forall u :: PodsOf(s2.meta, u) == PodsOf(s.meta, u);
    assert s2 == s.(meta := s2.meta) && s2.meta.tenants == s.meta.tenants;
    assert Located(s2) by { SameHolds(s, s2); }
    hide PodsOf, Located;
  }

  // The registration that precedes putWarmedPod when a pod gets its first address.
  function Known(s: State, pod: string, ip: string): Meta {
    if pod !in s.meta.registry then WithInfo(s.meta.(registry := s.meta.registry + {pod}), pod, PodInfo(ip, WARM, 0))
    else WithInfo(s.meta, pod, InfoOf(s.meta, pod).(ip := ip))
  }

  lemma ArrivalKeeps(s: State, pod: string, ip: string, now: int)
    requires Inv(s) && Enabled(s, PodEvent(pod, ip, now))
    requires ip != "" && (pod !in s.meta.registry || InfoOf(s.meta, pod).ip == "")
    ensures Inv(Evented(s, pod, ip, now))
  {
    var known := Known(s, pod, ip);
    ListedOnce(s, pod, WARM);
    KnownIsSame(s, pod, ip);
    assert UpdatePod(s.meta, pod, ip, now) == PutWarmed(known, WARM, pod, true, now);
    hide UpdatePod, Known, PodsOf, NoDup;
    PutWarmedMoves(known, WARM, pod, true, now);
    ArrivalHands(s, pod, ip, now);
    Arrived(s, Evented(s, pod, ip, now), pod, ip);
  }

  lemma KnownIsSame(s: State, pod: string, ip: string)
    ensures var known := Known(s, pod, ip);
            && (forall u :: PodsOf(known, u) == PodsOf(s.meta, u))
            && known.tenants == s.meta.tenants
            && known.registry == s.meta.registry + {pod}
            && known.info.Keys == s.meta.info.Keys + {pod}
            && (forall n :: n in s.meta.info && n != pod ==> known.info[n] == s.meta.info[n])
            && known.info[pod].ip == ip
            && known.info[pod].tenant == (if pod in s.meta.registry then InfoOf(s.meta, pod).tenant else WARM)
  {
  }

  lemma Arrived(s: State, s2: State, pod: string, ip: string)
    requires Inv(s) && ip != "" && pod !in s.loc && (pod in s.meta.registry || pod !in s.meta.info)
    requires s2 == s.(meta := s2.meta, loc := s.loc[pod := InPool])
    requires Moved(Known(s, pod, ip), s2.meta, {pod}, Some(WARM))
    requires s2.meta.registry == Known(s, pod, ip).registry
    requires HandsMoved(s.(meta := Known(s, pod, ip)), s2, {pod}, Some(InPool))
    ensures Inv(s2)
  {
    hide Known, Moved, HandsMoved, Located, BackPointers, Lists, OpValid, Registered;
    KnownIsLocated(s, pod, ip);
    ArrivedIsRegistered(s, s2, pod, ip);
    MovedKeepsLists(Known(s, pod, ip), s2.meta, {pod}, Some(WARM));
    Relocates(s.(meta := Known(s, pod, ip)), s2, {pod}, Some(InPool));
  }

  lemma MovedKeepsLists(m: Meta, m2: Meta, pods: set<string>, to: Option<string>)
    requires Moved(m, m2, pods, to)
    ensures Lists(m2) && m.tenants.Keys <= m2.tenants.Keys
  {
  }

  lemma KnownIsLocated(s: State, pod: string, ip: string)
    requires Inv(s) && pod !in s.loc && (pod in s.meta.registry || pod !in s.meta.info)
    ensures var s1 := s.(meta := Known(s, pod, ip));
            Located(s1) && BackPointers(s1) && Lists(s1.meta) && s1.meta.tenants == s.meta.tenants
  {
    KnownIsSame(s, pod, ip);
    hide Known, PodsOf, NoDup;
    SameHolds(s, s.(meta := Known(s, pod, ip)));
  }

  lemma ArrivedIsRegistered(s: State, s2: State, pod: string, ip: string)
    requires Registered(s) && ip != "" && (pod in s.meta.registry || pod !in s.meta.info)
    requires s2 == s.(meta := s2.meta, loc := s.loc[pod := InPool])
    requires Moved(Known(s, pod, ip), s2.meta, {pod}, Some(WARM))
    requires s2.meta.registry == Known(s, pod, ip).registry
    ensures Registered(s2)
  {
    KnownIsSame(s, pod, ip);
    hide Known, PodsOf, NoDup, Lists;
    assert s2.meta.info.Keys == s.meta.info.Keys + {pod} && s2.meta.info[pod].ip == ip;
    assert forall n :: n in s.meta.info && n != pod ==> s2.meta.info[n] == s.meta.info[n];
    hide Moved;
  }

  lemma SameHolds(s: State, s1: State)
    requires Located(s) && s1 == s.(meta := s1.meta) && s1.meta.tenants.Keys == s.meta.tenants.Keys
    requires forall u :: PodsOf(s1.meta, u) == PodsOf(s.meta, u)
    ensures Located(s1)
  {
    hide PodsOf;
    forall n, p ensures Holds(s1, n, p) <==> Holds(s, n, p) {}
  }

  lemma ArrivalHands(s: State, pod: string, ip: string, now: int)
    requires Located(s) && pod !in s.loc && ip != ""
    requires pod !in s.meta.registry || InfoOf(s.meta, pod).ip == ""
    ensures var s1 := s.(meta := Known(s, pod, ip));
            && HandsMoved(s1, Evented(s, pod, ip, now), {pod}, Some(InPool))
            && LocMoved(s.loc, Evented(s, pod, ip, now).loc, {pod}, Some(InPool))
  {
    hide PodsOf, UpdatePod, Known;
    HeldWhere(s, pod);
  }

  lemma GoneKeeps(s: State, pod: string, now: int)
    requires Inv(s)
    ensures Inv(Gone(s, pod, now))
  {
    if pod in s.meta.registry {
      BackPointerFinds(s, pod);
      UnregisterMoves(s.meta, pod, now);
      hide Unregister, PodsOf, NoDup, OpValid, Holds;
      if InHands(s, pod) {
        GhostKeeps(s, pod, now);
      } else {
        VanishKeeps(s, pod, now);
      }
    }
  }

  lemma VanishKeeps(s: State, pod: string, now: int)
    requires Inv(s) && pod in s.meta.registry && !InHands(s, pod)
    requires Moved(s.meta, Unregister(s.meta, pod, now), {pod}, None)
    requires Unregister(s.meta, pod, now).registry == s.meta.registry - {pod}
    ensures Inv(Gone(s, pod, now))
  {
    hide Unregister, PodsOf, NoDup, OpValid, Holds;
    GoneHands(s, pod, now);
    Relocates(s, Gone(s, pod, now), {pod}, None);
  }

  lemma GhostKeeps(s: State, pod: string, now: int)
    requires Inv(s) && pod in s.meta.registry && InHands(s, pod)
    requires Moved(s.meta, Unregister(s.meta, pod, now), {pod}, None)
    requires Unregister(s.meta, pod, now).registry == s.meta.registry - {pod}
    ensures Inv(Gone(s, pod, now))
  {
    hide Unregister, PodsOf, NoDup, OpValid, Holds;
    var s2 := Gone(s, pod, now);
    HandsKeep(s, s2, pod);
    Relocates(s, s2, {pod}, Some(s.loc[pod]));
  }

  lemma HandsKeep(s: State, s2: State, pod: string)
    requires Located(s) && pod in s.loc && !Container(s.loc[pod])
    requires s2 == s.(meta := s2.meta, ghosts := s2.ghosts)
    ensures HandsMoved(s, s2, {pod}, Some(s.loc[pod])) && LocMoved(s.loc, s2.loc, {pod}, Some(s.loc[pod]))
  {
    HeldWhere(s, pod);
  }

  lemma GoneHands(s: State, pod: string, now: int)
    requires Located(s) && pod in s.meta.registry && !InHands(s, pod)
    ensures HandsMoved(s, Gone(s, pod, now), {pod}, None) && LocMoved(s.loc, Gone(s, pod, now).loc, {pod}, None)
  {
    hide Unregister, PodsOf;
    HeldWhere(s, pod);
  }

  lemma LifecycleKeeps(s: State, op: int, t: string, from: TenantState, to: TenantState, kind: Kind, want: nat)
    requires Inv(s) && s.ready && op !in s.ops
    ensures Inv(Lifecycle(s, op, t, from, to, kind, want))
  {
    var s2 := Lifecycle(s, op, t, from, to, kind, want);
    assert forall u :: PodsOf(s2.meta, u) == PodsOf(s.meta, u);
    assert WARM !in s2.meta.tenants;
    forall n, p ensures Holds(s2, n, p) <==> Holds(s, n, p) {}
  }

  lemma LaunchKeeps(s: State, op: int, t: string, kind: Kind, want: nat)
    requires Inv(s) && s.ready && op !in s.ops && t in s.meta.tenants
    ensures Inv(Launch(s, op, kind, false, t, want))
  {
    var s2 := Launch(s, op, kind, false, t, want);
    forall n, p ensures Holds(s2, n, p) <==> Holds(s, n, p) {}
  }

  // ---------------------------------------------------------------------------------------------
  // Operations

  lemma MembersAreOnlyIn(s: State, t: string)
    requires Inv(s) && (t == WARM || t in s.meta.tenants)
    ensures forall n :: n in PodsOf(s.meta, t) ==>
              n in s.meta.info && n in s.loc && s.loc[n] == PlaceOf(t) && OnlyIn(s.meta, n, t)
  {
    forall n | n in PodsOf(s.meta, t)
      ensures n in s.meta.info && n in s.loc && s.loc[n] == PlaceOf(t) && OnlyIn(s.meta, n, t)
    {
      ListedMeansLocated(s, n, t);
      ListedOnce(s, n, t);
    }
  }

  lemma AbortKeeps(s: State, op: int)
    requires Inv(s) && op in s.ops && s.ops[op].phase == Queued
    ensures Inv(s.(ops := s.ops - {op}))
  {
    hide PodsOf, NoDup;
    var s2 := s.(ops := s.ops - {op});
    forall n, p ensures Holds(s2, n, p) <==> Holds(s, n, p) {}
  }

  // The operation takes pods out of one container into its hands.
  lemma TakingHands(s: State, s2: State, op: int, pods: seq<string>)
    requires Located(s) && op in s.ops && s.ops[op].phase == Queued && OpValid(s.ops[op])
    requires forall n :: n in pods ==> n in s.loc && Container(s.loc[n])
    requires s2 == s.(meta := s2.meta, ops := s2.ops, loc := Move(s.loc, pods, InOperation(op)))
    requires op in s2.ops && s2.ops == s.ops[op := s.ops[op].(phase := Running, want := s2.ops[op].want, taken := pods)]
    ensures HandsMoved(s, s2, ToSet(pods), Some(InOperation(op)))
    ensures LocMoved(s.loc, s2.loc, ToSet(pods), Some(InOperation(op)))
  {
    hide PodsOf, NoDup;
    forall n, p | !Container(p)
      ensures Holds(s2, n, p) <==> if n in ToSet(pods) then InOperation(op) == p else Holds(s, n, p)
    {
      assert Holds(s, n, p) <==> n in s.loc && s.loc[n] == p;
    }
  }

  lemma BeginKeeps(s: State, op: int, now: int)
    requires Inv(s) && Enabled(s, Begin(op, now))
    ensures Inv(Begun(s, op, now))
  {
    var o := s.ops[op];
    if TenantOf(s.meta, o.tenant).state != Expected(o) {
      AbortKeeps(s, op);
    } else if o.kind == Adding {
      AddBeginKeeps(s, op, now);
    } else {
      RemoveBeginKeeps(s, op, now);
    }
  }

  lemma AddBeginKeeps(s: State, op: int, now: int)
    requires Inv(s) && Enabled(s, Begin(op, now)) && s.ops[op].kind == Adding
    requires TenantOf(s.meta, s.ops[op].tenant).state == Expected(s.ops[op])
    ensures Inv(Begun(s, op, now))
  {
    var o := s.ops[op];
    var s2 := Begun(s, op, now);
    var taken := Warmed(s.meta, o.want);
    MembersAreOnlyIn(s, WARM);
    TakeWarmedMoves(s.meta, o.tenant, o.want, now);
    hide TakeWarmed, PodsOf, NoDup, Holds;
    TakingHands(s, s2, op, taken);
    Settles(s, s2, ToSet(taken), Some(InOperation(op)));
  }

  lemma RemoveBeginKeeps(s: State, op: int, now: int)
    requires Inv(s) && Enabled(s, Begin(op, now)) && s.ops[op].kind == Removing
    requires TenantOf(s.meta, s.ops[op].tenant).state == Expected(s.ops[op])
    ensures Inv(Begun(s, op, now))
  {
    var s2 := Begun(s, op, now);
    var taken := s2.ops[op].taken;
    RemoveBeginMoves(s, op, now);
    hide Pop, Popped, Swap, PodsOf, NoDup, Holds, Moved, HandsMoved, LocMoved, Located, BackPointers, Registered;
    TakingHands(s, s2, op, taken);
    Settles(s, s2, ToSet(taken), Some(InOperation(op)));
  }

  lemma RemoveBeginMoves(s: State, op: int, now: int)
    requires Inv(s) && Enabled(s, Begin(op, now)) && s.ops[op].kind == Removing
    requires TenantOf(s.meta, s.ops[op].tenant).state == Expected(s.ops[op])
    ensures var s2 := Begun(s, op, now);
            op in s2.ops && var taken := s2.ops[op].taken;
            && Moved(s.meta, s2.meta, ToSet(taken), None) && s2.meta.registry == s.meta.registry && NoDup(taken)
            && (forall n :: n in taken ==> n in s.loc && Container(s.loc[n]))
  {
    var o := s.ops[op];
    var cnt := if o.lifecycle then |PodsOf(s.meta, o.tenant)| else o.want;
    MembersAreOnlyIn(s, o.tenant);
    hide Inv, OnlyIn, PodsOf, Popped, Pop, Swap, NoDup, Moved;
    RemoveKnows(s, op);
    PopMoves(s.meta, o.tenant, cnt, now);
    PoppedAreMembers(s.meta, o.tenant, cnt);
    SwapMoves(s.meta, Pop(s.meta, o.tenant, cnt, now), o.tenant, Pausing, Paused,
              ToSet(Popped(s.meta, o.tenant, cnt)), None);
  }

  lemma RemoveKnows(s: State, op: int)
    requires Inv(s) && op in s.ops
    ensures Lists(s.meta) && s.ops[op].tenant in s.meta.tenants
  {
  }

  lemma PoppedAreMembers(m: Meta, t: string, cnt: nat)
    ensures forall n :: n in Popped(m, t, cnt) ==> n in PodsOf(m, t)
  {
    ReverseKeeps(PodsOf(m, t)[|PodsOf(m, t)| - PopCount(m, t, cnt)..]);
  }

  lemma SwapMoves(m: Meta, m1: Meta, t: string, from: TenantState, to: TenantState, pods: set<string>,
                  dest: Option<string>)
    requires Moved(m, m1, pods, dest) && t in m1.tenants
    ensures Moved(m, Swap(m1, t, from, to), pods, dest)
    ensures Swap(m1, t, from, to).registry == m1.registry && Swap(m1, t, from, to).tenants.Keys == m1.tenants.Keys
  {
    if m1.tenants[t].state == from {
      SameStates(m1, t, to);
      MovedBetweenSame(m, m, m1, Swap(m1, t, from, to), pods, dest);
    }
  }

  lemma ResultKeeps(o: Op, pod: string, outcome: Outcome)
    requires OpValid(o) && o.phase == Running && pod in o.taken && pod !in o.done
    ensures OpValid(o.Result(pod, outcome))
    ensures forall n :: o.Result(pod, outcome).Holds(n) <==> if n == pod then outcome == Undone else o.Holds(n)
  {
  }

  // An operation lets go of one pod, which goes to a container or starts its delay.
  lemma ReleaseHands(s: State, s2: State, op: int, pod: string, outcome: Outcome, dest: Place)
    requires Inv(s) && op in s.ops && s.ops[op].phase == Running && pod in s.ops[op].taken && pod !in s.ops[op].done
    requires outcome != Undone && (Container(dest) || dest == InDelay)
    requires s2 == s.(meta := s2.meta, delayed := s2.delayed,
                      ops := s.ops[op := s.ops[op].Result(pod, outcome)], loc := s.loc[pod := dest])
    requires s2.delayed.Keys == s.delayed.Keys + if dest == InDelay then {pod} else {}
    ensures pod in s.loc && s.loc[pod] == InOperation(op)
    ensures HandsMoved(s, s2, {pod}, Some(dest)) && LocMoved(s.loc, s2.loc, {pod}, Some(dest))
    ensures forall i :: i in s2.ops ==> OpValid(s2.ops[i]) && s2.ops[i].tenant in s.meta.tenants
  {
    hide PodsOf, NoDup, OpValid;
    HeldWhere(s, pod);
    assert s.ops[op].Holds(pod);
    ResultKeeps(s.ops[op], pod, outcome);
  }

  lemma OkKeeps(s: State, op: int, pod: string, stime: int, now: int)
    requires Inv(s) && Enabled(s, Replied(op, pod, Ok(stime), now))
    ensures Inv(RepliedTo(s, op, pod, Ok(stime), now))
  {
    var o := s.ops[op];
    var s2 := RepliedTo(s, op, pod, Ok(stime), now);
    var t := if o.kind == Adding then o.tenant else WARM;
    ReleaseHands(s, s2, op, pod, Committed, PlaceOf(t));
    ListedOnce(s, pod, t);
    if o.kind == Adding {
      FileMoves(s.meta, pod, t, InfoOf(s.meta, pod).(tenant := t, stime := stime));
    } else {
      PutWarmedMoves(s.meta, o.tenant, pod, false, now);
    }
    hide PodsOf, NoDup, Holds, OpValid, PutAt, PutWarmed;
    Settles(s, s2, {pod}, Some(PlaceOf(t)));
  }

  lemma GrpcErrorKeeps(s: State, op: int, pod: string, now: int)
    requires Inv(s) && Enabled(s, Replied(op, pod, GrpcError, now))
    ensures Inv(RepliedTo(s, op, pod, GrpcError, now))
  {
    hide PodsOf, NoDup;
    var s2 := RepliedTo(s, op, pod, GrpcError, now);
    ResultKeeps(s.ops[op], pod, Undone);
    forall n, p ensures Holds(s2, n, p) <==> Holds(s, n, p) {}
  }

  lemma DelayKeeps(s: State, op: int, pod: string, t: string, stime: int, now: int)
    requires Inv(s) && Enabled(s, Replied(op, pod, AppError(t, stime, true), now))
    ensures Inv(RepliedTo(s, op, pod, AppError(t, stime, true), now))
  {
    var s2 := RepliedTo(s, op, pod, AppError(t, stime, true), now);
    ReleaseHands(s, s2, op, pod, Delayed, InDelay);
    HeldByNobody(s, pod);
    hide PodsOf, NoDup, Holds, OpValid, Moved;
    Settles(s, s2, {pod}, Some(InDelay));
  }

  lemma HeldByNobody(s: State, pod: string)
    requires Inv(s) && pod in s.loc && !Container(s.loc[pod])
    ensures Moved(s.meta, s.meta, {pod}, None)
  {
    forall u ensures pod !in PodsOf(s.meta, u) {
      if pod in PodsOf(s.meta, u) { ListedMeansLocated(s, pod, u); }
    }
  }

  lemma AppErrorKeeps(s: State, op: int, pod: string, t: string, stime: int, now: int)
    requires Inv(s) && Enabled(s, Replied(op, pod, AppError(t, stime, false), now))
    ensures Inv(RepliedTo(s, op, pod, AppError(t, stime, false), now))
  {
    hide PodsOf, NoDup, CorrectedTo;
    var s1 := s.(ops := s.ops[op := s.ops[op].Result(pod, Corrected)]);
    ResultKeeps(s.ops[op], pod, Corrected);
    HeldWhere(s, pod);
    assert s.ops[op].Holds(pod);
    CorrectionKeeps(s, s1, pod, t, stime, now);
  }

  lemma RepliedKeeps(s: State, op: int, pod: string, reply: Reply, now: int)
    requires Inv(s) && Enabled(s, Replied(op, pod, reply, now))
    ensures Inv(RepliedTo(s, op, pod, reply, now))
  {
    hide Inv, RepliedTo;
    match reply
    case Ok(stime) => OkKeeps(s, op, pod, stime, now);
    case GrpcError => GrpcErrorKeeps(s, op, pod, now);
    case AppError(t, stime, isUnassigning) =>
      if isUnassigning { DelayKeeps(s, op, pod, t, stime, now); } else { AppErrorKeeps(s, op, pod, t, stime, now); }
  }

  lemma DelayOverKeeps(s: State, pod: string, now: int)
    requires Inv(s) && pod in s.delayed
    ensures Inv(Redelivered(s, pod, now))
  {
    var s2 := Redelivered(s, pod, now);
    DelayOverHands(s, pod, now);
    ListedOnce(s, pod, WARM);
    PutWarmedMoves(s.meta, s.delayed[pod], pod, false, now);
    hide PodsOf, NoDup, OpValid, PutWarmed, Moved, Holds, HandsMoved, LocMoved;
    Settles(s, s2, {pod}, Some(InPool));
  }

  lemma DelayOverHands(s: State, pod: string, now: int)
    requires Located(s) && pod in s.delayed
    ensures pod in s.loc && s.loc[pod] == InDelay
    ensures var s2 := Redelivered(s, pod, now);
            HandsMoved(s, s2, {pod}, Some(InPool)) && LocMoved(s.loc, s2.loc, {pod}, Some(InPool))
  {
    hide PodsOf, PutWarmed;
    HeldWhere(s, pod);
  }

  // ---------------------------------------------------------------------------------------------
  // The end of an operation

  ghost function Existing(m: Meta, pods: seq<string>): set<string> {
    set n | n in pods && n in m.registry
  }

  ghost predicate Nowhere(m: Meta, n: string) {
    forall u :: n !in PodsOf(m, u)
  }

  function UndoTarget(o: Op): string {
    if o.kind == Adding then WARM else o.tenant
  }

  lemma UndoOneMoves(m: Meta, o: Op, pod: string, now: int)
    requires Lists(m) && OnlyIn(m, pod, UndoTarget(o)) && pod in m.info && o.tenant in m.tenants
    ensures var m2 := UndoOne(m, o, pod, now);
            && Moved(m, m2, if pod in m.registry then {pod} else {}, Some(UndoTarget(o)))
            && m2.registry == m.registry && m2.tenants.Keys == m.tenants.Keys
  {
    if pod in m.registry {
      if o.kind == Adding {
        PutWarmedMoves(m, o.tenant, pod, false, now);
      } else {
        FileMoves(m, pod, o.tenant, InfoOf(m, pod).(tenant := o.tenant));
      }
    }
  }

  // The undo list goes back where it came from, except for pods that no longer exist.
  lemma {:induction false} UndoAllMoves(m: Meta, o: Op, undo: seq<string>, now: int)
    requires Lists(m) && NoDup(undo) && o.tenant in m.tenants
    requires forall n :: n in undo ==> n in m.info && Nowhere(m, n)
    ensures var m2 := UndoAll(m, o, undo, now);
            && Moved(m, m2, Existing(m, undo), Some(UndoTarget(o)))
            && m2.registry == m.registry && m2.tenants.Keys == m.tenants.Keys
  {
    hide PodsOf, UndoOne;
    if undo != [] {
      var last := undo[|undo| - 1];
      var rest := undo[..|undo| - 1];
      assert undo == rest + [last] && Nowhere(m, last);
      UndoAllMoves(m, o, rest, now);
      var m1 := UndoAll(m, o, rest, now);
      assert last !in Existing(m, rest);
      assert OnlyIn(m1, last, UndoTarget(o));
      UndoOneMoves(m1, o, last, now);
      assert Existing(m, undo) == Existing(m, rest) + if last in m.registry then {last} else {};
      MovesCompose(m, m1, UndoAll(m, o, undo, now),
                   Existing(m, rest), if last in m.registry then {last} else {}, Some(UndoTarget(o)));
    }
  }

  lemma FinishMoves(s: State, op: int, now: int)
    requires Inv(s) && Enabled(s, Finish(op, now))
    ensures var o := s.ops[op];
            var s2 := Finished(s, op, now);
            && Moved(s.meta, s2.meta, Existing(s.meta, o.undo), Some(UndoTarget(o)))
            && s2.meta.registry == s.meta.registry && s2.meta.tenants.Keys == s.meta.tenants.Keys
  {
    var o := s.ops[op];
    forall n | n in o.undo ensures n in s.meta.info && Nowhere(s.meta, n) {
      assert o.Holds(n);
      HeldWhere(s, n);
      HeldByNobody(s, n);
    }
    UndoAllMoves(s.meta, o, o.undo, now);
    SwapMoves(s.meta, UndoAll(s.meta, o, o.undo, now), o.tenant, Resuming, Resumed,
              Existing(s.meta, o.undo), Some(UndoTarget(o)));
  }

  lemma FinishHands(s: State, op: int, now: int, n: string, p: Place)
    requires Inv(s) && Enabled(s, Finish(op, now)) && !Container(p)
    ensures Holds(Finished(s, op, now), n, p) <==> n !in s.ops[op].undo && Holds(s, n, p)
  {
    hide PodsOf, UndoAll, NoDup;
    HeldWhere(s, n);
    if n in s.ops[op].undo { assert s.ops[op].Holds(n); }
  }

  lemma FinishLocates(s: State, op: int, now: int)
    requires Inv(s) && Enabled(s, Finish(op, now))
    requires Moved(s.meta, Finished(s, op, now).meta, Existing(s.meta, s.ops[op].undo), Some(UndoTarget(s.ops[op])))
    requires Finished(s, op, now).meta.tenants.Keys == s.meta.tenants.Keys
    ensures Located(Finished(s, op, now)) && BackPointers(Finished(s, op, now))
  {
    hide PodsOf, UndoAll, NoDup, OpValid, Moved, Holds;
    var o := s.ops[op];
    var s2 := Finished(s, op, now);
    forall n | n in o.undo ensures n in s.loc && s.loc[n] == InOperation(op) {
      assert OpValid(o);
      UndoIsHeld(s, op, n);
    }
    forall n, p ensures Holds(s2, n, p) <==> n in s2.loc && s2.loc[n] == p {
      assert Holds(s, n, p) <==> n in s.loc && s.loc[n] == p;
      if Container(p) {
        FinishFills(s, op, now, n, p);
      } else {
        FinishHands(s, op, now, n, p);
      }
    }
    FinishPointsBack(s, op, now);
  }

  lemma FinishFills(s: State, op: int, now: int, n: string, p: Place)
    requires Enabled(s, Finish(op, now)) && Container(p) && Lists(s.meta) && s.ops[op].tenant in s.meta.tenants
    requires Moved(s.meta, Finished(s, op, now).meta, Existing(s.meta, s.ops[op].undo), Some(UndoTarget(s.ops[op])))
    requires Finished(s, op, now).meta.tenants.Keys == s.meta.tenants.Keys
    requires n in s.ops[op].undo ==> n in s.loc && s.loc[n] == InOperation(op)
    requires Holds(s, n, p) <==> n in s.loc && s.loc[n] == p
    ensures Holds(Finished(s, op, now), n, p) <==> n in Finished(s, op, now).loc && Finished(s, op, now).loc[n] == p
  {
    hide PodsOf, UndoAll, NoDup;
    var u := if p.InTenant? then p.tenant else WARM;
    assert n in PodsOf(Finished(s, op, now).meta, u) <==>
      if n in Existing(s.meta, s.ops[op].undo) then u == UndoTarget(s.ops[op]) else n in PodsOf(s.meta, u);
  }

  lemma FinishPointsBack(s: State, op: int, now: int)
    requires BackPointers(s) && Enabled(s, Finish(op, now)) && WARM !in s.meta.tenants
    requires s.ops[op].tenant in s.meta.tenants
    requires Moved(s.meta, Finished(s, op, now).meta, Existing(s.meta, s.ops[op].undo), Some(UndoTarget(s.ops[op])))
    requires forall n :: n in s.ops[op].undo ==> n in s.loc && s.loc[n] == InOperation(op)
    ensures BackPointers(Finished(s, op, now))
  {
    hide PodsOf, UndoAll, NoDup;
  }

  lemma UndoIsHeld(s: State, op: int, n: string)
    requires Located(s) && op in s.ops && OpValid(s.ops[op]) && n in s.ops[op].undo
    ensures n in s.loc && s.loc[n] == InOperation(op)
  {
    assert s.ops[op].Holds(n);
    HeldWhere(s, n);
  }

  lemma FinishKeeps(s: State, op: int, now: int)
    requires Inv(s) && Enabled(s, Finish(op, now))
    ensures Inv(Finished(s, op, now))
  {
    hide PodsOf, UndoAll, NoDup, OpValid, Located, BackPointers, Holds;
    FinishMoves(s, op, now);
    FinishLocates(s, op, now);
    var s2 := Finished(s, op, now);
    forall n | n in s.ops[op].undo ensures n in s.loc { UndoIsHeld(s, op, n); }
  }

  // ---------------------------------------------------------------------------------------------
  // The pool's own resizes

  lemma PendingKeeps(s: State, s2: State)
    requires Inv(s)
    requires s2 == s.(meta := WithPending(s.meta, s2.meta.pool.pending), warming := s2.warming, replicas := s2.replicas)
    requires !s.warming.Shrinking? && !s2.warming.Shrinking? && (s.ready || s2.warming == Idle)
    ensures Inv(s2)
  {
    assert forall u :: PodsOf(s2.meta, u) == PodsOf(s.meta, u);
    hide PodsOf, NoDup, OpValid;
    forall n, p ensures Holds(s2, n, p) <==> Holds(s, n, p) {}
  }

  lemma ShrinkAskedHands(s: State, cnt: nat, now: int)
    requires Inv(s) && Enabled(s, ShrinkAsked(cnt, now))
    requires forall n :: n in Warmed(s.meta, cnt) ==> n in s.loc && s.loc[n] == InPool
    ensures var s2 := Apply(s, ShrinkAsked(cnt, now));
            && HandsMoved(s, s2, ToSet(Warmed(s.meta, cnt)), Some(InShrink))
            && LocMoved(s.loc, s2.loc, ToSet(Warmed(s.meta, cnt)), Some(InShrink))
  {
    hide PodsOf, TakeWarmed, Warmed, NoDup, OpValid;
    var s2 := Apply(s, ShrinkAsked(cnt, now));
    forall n, p | !Container(p)
      ensures Holds(s2, n, p) <==> if n in ToSet(Warmed(s.meta, cnt)) then InShrink == p else Holds(s, n, p)
    {
      assert Holds(s, n, p) <==> n in s.loc && s.loc[n] == p;
    }
  }

  lemma ShrinkAskedKeeps(s: State, cnt: nat, now: int)
    requires Inv(s) && Enabled(s, ShrinkAsked(cnt, now))
    ensures Inv(Apply(s, ShrinkAsked(cnt, now)))
  {
    MembersAreOnlyIn(s, WARM);
    TakeWarmedMoves(s.meta, WARM, cnt, now);
    ShrinkAskedHands(s, cnt, now);
    hide PodsOf, TakeWarmed, NoDup, Holds, OpValid;
    Settles(s, Apply(s, ShrinkAsked(cnt, now)), ToSet(Warmed(s.meta, cnt)), Some(InShrink));
  }

  lemma ShrinkEndHands(s: State, committed: bool, now: int)
    requires Inv(s) && s.warming.Shrinking?
    ensures forall n :: n in s.warming.chosen ==> n in s.loc && s.loc[n] == InShrink
    ensures var s2 := Apply(s, ShrinkAnswered(committed, now));
            var dest := Some(if committed then Condemned else InPool);
            && HandsMoved(s, s2, ToSet(s.warming.chosen), dest)
            && LocMoved(s.loc, s2.loc, ToSet(s.warming.chosen), dest)
  {
    hide PodsOf, PutBack, NoDup, OpValid;
    var s2 := Apply(s, ShrinkAnswered(committed, now));
    forall n | n in s.warming.chosen ensures n in s.loc && s.loc[n] == InShrink { HeldWhere(s, n); }
    forall n, p | !Container(p)
      ensures Holds(s2, n, p) <==>
              if n in ToSet(s.warming.chosen) then committed && p == Condemned else Holds(s, n, p)
    {
      assert Holds(s, n, p) <==> n in s.loc && s.loc[n] == p;
      assert Holds(s, n, InShrink) <==> n in s.loc && s.loc[n] == InShrink;
    }
  }

  lemma ChosenAreNowhere(s: State)
    requires Inv(s) && s.warming.Shrinking?
    ensures Moved(s.meta, s.meta, ToSet(s.warming.chosen), None)
    ensures forall n :: n in s.warming.chosen ==> n in s.meta.info && Nowhere(s.meta, n)
  {
    forall n | n in s.warming.chosen
      ensures n in s.meta.info && Nowhere(s.meta, n) && s.meta.info[n].tenant == WARM
    {
      HeldWhere(s, n);
      HeldByNobody(s, n);
    }
  }

  lemma {:induction false} PutBackMoves(m: Meta, pods: seq<string>, now: int)
    requires Lists(m) && NoDup(pods) && forall n :: n in pods ==> n in m.info && Nowhere(m, n)
    ensures var m2 := PutBack(m, pods, now);
            && Moved(m, m2, ToSet(pods), Some(WARM))
            && m2.registry == m.registry && m2.tenants == m.tenants
  {
    hide PodsOf, PutWarmed;
    if pods != [] {
      var last := pods[|pods| - 1];
      var rest := pods[..|pods| - 1];
      assert pods == rest + [last] && Nowhere(m, last);
      PutBackMoves(m, rest, now);
      var m1 := PutBack(m, rest, now);
      assert OnlyIn(m1, last, WARM);
      PutWarmedMoves(m1, WARM, last, false, now);
      assert ToSet(pods) == ToSet(rest) + {last};
      MovesCompose(m, m1, PutBack(m, pods, now), ToSet(rest), {last}, Some(WARM));
    }
  }

  lemma ShrinkAnsweredKeeps(s: State, committed: bool, now: int)
    requires Inv(s) && s.warming.Shrinking?
    ensures Inv(Apply(s, ShrinkAnswered(committed, now)))
  {
    ChosenAreNowhere(s);
    ShrinkEndHands(s, committed, now);
    PutBackMoves(s.meta, s.warming.chosen, now);
    hide PodsOf, PutBack, NoDup, Holds, OpValid, HandsMoved, Moved;
    Settles(s, Apply(s, ShrinkAnswered(committed, now)), ToSet(s.warming.chosen),
            Some(if committed then Condemned else InPool));
  }

  // ---------------------------------------------------------------------------------------------
  // Every step, every run

  lemma ScanKeeps(s: State, pod: string, a: Answer, now: int)
    requires Inv(s) && Enabled(s, ScanAnswered(pod, a, now))
    ensures Inv(Apply(s, ScanAnswered(pod, a, now)))
  {
    hide PodsOf, CorrectedTo, OpValid, NoDup;
    if NeedsCorrection(s.meta, pod, a, !s.ready) {
      HeldWhere(s, pod);
      CorrectionKeeps(s, s, pod, a.tenant, a.stime, now);
    }
  }

  lemma StepKeeps(s: State, e: Step)
    requires Inv(s) && Enabled(s, e)
    ensures Inv(Apply(s, e))
  {
    match e
    case SetupTenant(t, initial) => SetupKeeps(s, t, initial);
    case PodEvent(pod, ip, now) => EventKeeps(s, pod, ip, now);
    case PodGone(pod, now) => GoneKeeps(s, pod, now);
    case ScanAnswered(pod, a, now) => ScanKeeps(s, pod, a, now);
    case BecomeReady => ReadyKeeps(s);
    case AskPause(t, op) => LifecycleKeeps(s, op, t, Resumed, Pausing, Removing, 0);
    case AskResume(t, op, cnt) => LifecycleKeeps(s, op, t, Paused, Resuming, Adding, cnt);
    case AskResize(t, op, kind, cnt) => if t in s.meta.tenants { LaunchKeeps(s, op, t, kind, cnt); }
    case Begin(op, now) => BeginKeeps(s, op, now);
    case Replied(op, pod, reply, now) => RepliedKeeps(s, op, pod, reply, now);
    case Finish(op, now) => FinishKeeps(s, op, now);
    case DelayOver(pod, now) => DelayOverKeeps(s, pod, now);
    case GrowAsked(_) => PendingKeeps(s, Apply(s, e));
    case GrowAnswered(_) => PendingKeeps(s, Apply(s, e));
    case ShrinkAsked(cnt, now) => ShrinkAskedKeeps(s, cnt, now);
    case ShrinkAnswered(committed, now) => ShrinkAnsweredKeeps(s, committed, now);
  }

  lemma ReadyKeeps(s: State)
    requires Inv(s)
    ensures Inv(s.(ready := true))
  {
    var s2 := s.(ready := true);
    forall n, p ensures Holds(s2, n, p) <==> Holds(s, n, p) {}
  }

  lemma {:induction false} RunKeeps(s: State, steps: seq<Step>, trace: seq<State>, k: nat)
    requires Inv(s) && IsRun(s, steps, trace) && k <= |steps|
    ensures Inv(trace[k])
  {
    if k > 0 {
      RunKeeps(s, steps, trace, k - 1);
      StepKeeps(trace[k - 1], steps[k - 1]);
    }
  }

  // The run mode never changes, and only dedicated mode has wild pods.
  lemma {:induction false} UndoKeepsMode(m: Meta, o: Op, undo: seq<string>, now: int)
    ensures UndoAll(m, o, undo, now).mode == m.mode
  {
    if undo != [] { UndoKeepsMode(m, o, undo[..|undo| - 1], now); }
  }

  lemma {:induction false} PutBackKeepsMode(m: Meta, pods: seq<string>, now: int)
    ensures PutBack(m, pods, now).mode == m.mode
  {
    if pods != [] { PutBackKeepsMode(m, pods[..|pods| - 1], now); }
  }

  lemma BegunKeepsMode(s: State, op: int, now: int)
    requires op in s.ops
    ensures Begun(s, op, now).meta.mode == s.meta.mode && Begun(s, op, now).wild == s.wild
  {
    hide PodsOf, InfoOf, Popped, Warmed, Move, Expected;
  }

  lemma CorrectKeepsMode(m: Meta, pod: string, t: string, stime: int, now: int)
    ensures Correct(m, pod, t, stime, now).mode == m.mode
  {
    hide PodsOf, Append, Without;
  }

  lemma RepliedKeepsTame(s: State, op: int, pod: string, reply: Reply, now: int)
    requires op in s.ops && s.meta.mode != DedicatedMode && s.wild == {}
    ensures RepliedTo(s, op, pod, reply, now).meta.mode == s.meta.mode && RepliedTo(s, op, pod, reply, now).wild == {}
  {
    if reply.AppError? { CorrectKeepsMode(s.meta, pod, reply.tenant, reply.stime, now); }
    hide PodsOf, Append, InfoOf, Correct;
  }

  lemma StepKeepsTame(s: State, e: Step)
    requires Enabled(s, e) && s.meta.mode != DedicatedMode && s.wild == {}
    ensures Apply(s, e).meta.mode == s.meta.mode && Apply(s, e).wild == {}
  {
    hide PodsOf, Append, Without, InfoOf, Popped, Warmed, Begun, RepliedTo, Correct, Move;
    match e
    case Begin(op, now) => BegunKeepsMode(s, op, now);
    case Replied(op, pod, reply, now) => RepliedKeepsTame(s, op, pod, reply, now);
    case ScanAnswered(pod, a, now) => CorrectKeepsMode(s.meta, pod, a.tenant, a.stime, now);
    case Finish(op, now) => UndoKeepsMode(s.meta, s.ops[op], s.ops[op].undo, now);
    case ShrinkAnswered(_, now) => PutBackKeepsMode(s.meta, s.warming.chosen, now);
    case _ =>
  }

  lemma {:induction false} NeverWild(mode: RunMode, softLimit: nat, steps: seq<Step>, trace: seq<State>, k: nat)
    requires IsRun(Start(mode, softLimit), steps, trace) && k <= |steps| && mode != DedicatedMode
    ensures trace[k].meta.mode == mode && trace[k].wild == {}
  {
    if k > 0 {
      NeverWild(mode, softLimit, steps, trace, k - 1);
      StepKeepsTame(trace[k - 1], steps[k - 1]);
    }
  }

  // A pod becomes a ghost only when it is deleted while an operation, a delay or a shrink holds it.
  lemma GhostsWereInHands(s: State, e: Step, n: string)
    requires Inv(s) && Enabled(s, e) && n in Apply(s, e).ghosts && n !in s.ghosts
    ensures e.PodGone? && e.pod == n && n in s.meta.registry
    ensures n in s.delayed || (s.warming.Shrinking? && n in s.warming.chosen) ||
            exists op :: op in s.ops && s.ops[op].Holds(n)
  {
    HeldWhere(s, n);
  }

  // In every state of every run from the start, two places never hold the same pod; every registered
  // pod with an address is held somewhere; and a held pod that is not registered was deleted while
  // an operation, a delay or a shrink had it. Outside dedicated mode no pod is ever wild.
  lemma ExclusiveOwnership(mode: RunMode, softLimit: nat, steps: seq<Step>, trace: seq<State>, k: nat)
    requires IsRun(Start(mode, softLimit), steps, trace) && k <= |steps|
    ensures var s := trace[k];
            && (forall n, p, q :: Holds(s, n, p) && Holds(s, n, q) ==> p == q)
            && (forall n :: n in s.meta.registry && InfoOf(s.meta, n).ip != "" ==> exists p :: Holds(s, n, p))
            && (forall n, p :: Holds(s, n, p) && n !in s.meta.registry ==> n in s.ghosts)
            && (mode != DedicatedMode ==> s.wild == {})
  {
    StartHolds(mode, softLimit);
    RunKeeps(Start(mode, softLimit), steps, trace, k);
    var s := trace[k];
    forall n | n in s.meta.registry && InfoOf(s.meta, n).ip != "" ensures exists p :: Holds(s, n, p) {
      assert Holds(s, n, s.loc[n]);
    }
    if mode != DedicatedMode { NeverWild(mode, softLimit, steps, trace, k); }
  }

  // In every reachable state a pod records exactly the tenant that lists it, and no tenant when none
  // does; a container lists no pod twice and no pod it does not know.
  lemma BackPointersAreExact(mode: RunMode, softLimit: nat, steps: seq<Step>, trace: seq<State>, k: nat)
    requires IsRun(Start(mode, softLimit), steps, trace) && k <= |steps|
    ensures var m := trace[k].meta;
            && (forall n, t :: n in m.info && t != WARM ==>
                (m.info[n].tenant == t <==> t in m.tenants && n in PodsOf(m, t)))
            && (forall n :: n in PodsOf(m, WARM) ==> n in m.info && m.info[n].tenant == WARM)
            && (forall t :: NoDup(PodsOf(m, t)))
  {
    StartHolds(mode, softLimit);
    RunKeeps(Start(mode, softLimit), steps, trace, k);
    var s := trace[k];
    forall n, t | n in s.meta.info && t != WARM
      ensures s.meta.info[n].tenant == t <==> t in s.meta.tenants && n in PodsOf(s.meta, t)
    {
      assert Holds(s, n, InTenant(t)) <==> n in s.loc && s.loc[n] == InTenant(t);
    }
    forall n | n in PodsOf(s.meta, WARM) ensures n in s.meta.info && s.meta.info[n].tenant == WARM {
      ListedMeansLocated(s, n, WARM);
    }
  }
}
