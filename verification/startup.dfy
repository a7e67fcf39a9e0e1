// The scan that runs once at startup: whatever order the supervisors answer in, the result is the same.
module Startup {
  import opened NameLists
  import opened MetaSpec
  import opened Protocol
  import opened Ownership

  datatype Heard = Heard(pod: string, answer: Answer)

  // The answers applied in the order they arrive; pods whose call failed are not among them.
  function ScanAll(s: State, heard: seq<Heard>, now: int): State {
    if heard == [] then s
    else
      var last := heard[|heard| - 1];
      Scanned(ScanAll(s, heard[..|heard| - 1], now), last.pod, last.answer, now)
  }

  // All pods that answered are in the pool, and none answers twice.
  ghost predicate Loaded(s: State, heard: seq<Heard>) {
    && Inv(s) && !s.ready
    && (forall i, j :: 0 <= i < j < |heard| ==> heard[i].pod != heard[j].pod)
    && (forall i :: 0 <= i < |heard| ==> InLoadedPool(s, heard[i].pod))
  }

  ghost predicate InLoadedPool(s: State, n: string) {
    n in s.meta.registry && n in s.loc && s.loc[n] == InPool
  }

  // What the supervisors said, as a set of facts without an order.
  ghost predicate Said(heard: seq<Heard>, n: string, a: Answer) {
    exists i :: 0 <= i < |heard| && heard[i] == Heard(n, a)
  }

  ghost predicate Settled(heard: seq<Heard>, n: string) {
    exists a :: Said(heard, n, a) && !a.isUnassigning
  }

  // Some settled answer names tenant t.
  ghost predicate Named(heard: seq<Heard>, t: string) {
    exists n, a :: Said(heard, n, a) && !a.isUnassigning && a.tenant == t
  }

  // The reconciled state, told by the answers alone.
  ghost predicate Reconciled(s: State, r: State, heard: seq<Heard>) {
    && r.loc.Keys == s.loc.Keys
    && (forall n, a :: Said(heard, n, a) && !a.isUnassigning ==>
          && n in r.loc && r.loc[n] == (if HasTarget(s.meta, a.tenant) then PlaceOf(a.tenant) else Wild)
          && (HasTarget(s.meta, a.tenant) ==> InfoOf(r.meta, n).stime == a.stime))
    && (forall n :: n in s.loc && !Settled(heard, n) ==> r.loc[n] == s.loc[n] && InfoOf(r.meta, n) == InfoOf(s.meta, n))
    && (forall t :: t in r.meta.tenants <==>
        t in s.meta.tenants || (t != WARM && AutoRegisters(s.meta) && Named(heard, t)))
    && (forall t :: t in r.meta.tenants ==>
          r.meta.tenants[t].state == if Named(heard, t) then Resumed else s.meta.tenants[t].state)
    && r.meta.mode == s.meta.mode && r.meta.registry == s.meta.registry
  }

  lemma SaidMore(rest: seq<Heard>, last: Heard)
    ensures forall n, a :: Said(rest + [last], n, a) <==> Said(rest, n, a) || last == Heard(n, a)
  {
    var all := rest + [last];
    assert all[|rest|] == last;
    forall n, a | Said(rest, n, a) ensures Said(all, n, a) {
      var i :| 0 <= i < |rest| && rest[i] == Heard(n, a);
      assert all[i] == Heard(n, a);
    }
  }

  // One settled answer about a pod that was in the pool.
  ghost predicate MovedByAnswer(r: State, r2: State, n: string, a: Answer) {
    var target := HasTarget(r.meta, a.tenant);
    && r2.loc == r.loc[n := if target then PlaceOf(a.tenant) else Wild]
    && r2.meta.mode == r.meta.mode && r2.meta.registry == r.meta.registry
    && (target ==> InfoOf(r2.meta, n).stime == a.stime)
    && (forall q :: q != n ==> InfoOf(r2.meta, q) == InfoOf(r.meta, q))
    && r2.meta.tenants.Keys == r.meta.tenants.Keys + (if target && a.tenant != WARM then {a.tenant} else {})
    && (forall t :: t in r2.meta.tenants ==>
          r2.meta.tenants[t].state == if t == a.tenant then Resumed else r.meta.tenants[t].state)
  }

  lemma CorrectionFromPool(r: State, n: string, a: Answer, now: int)
    requires Inv(r) && !r.ready && n in r.meta.registry && n in r.loc && r.loc[n] == InPool && !a.isUnassigning
    ensures Inv(Scanned(r, n, a, now)) && !Scanned(r, n, a, now).ready
    ensures MovedByAnswer(r, Scanned(r, n, a, now), n, a)
  {
    ScanKeeps(r, n, a, now);
    BackPointerFinds(r, n);
    CorrectionEffects(r.meta, n, a.tenant, a.stime, now);
    hide Correct, Inv, PodsOf;
  }

  lemma CorrectionEffects(m: Meta, n: string, t: string, stime: int, now: int)
    requires n in m.info && m.info[n].tenant == WARM && WARM !in m.tenants
    ensures var m2 := Correct(m, n, t, stime, now);
            && m2.mode == m.mode && m2.registry == m.registry
            && (HasTarget(m, t) ==> InfoOf(m2, n).stime == stime)
            && (forall q :: q != n ==> InfoOf(m2, q) == InfoOf(m, q))
            && m2.tenants.Keys == m.tenants.Keys + (if HasTarget(m, t) && t != WARM then {t} else {})
            && (forall u :: u in m2.tenants ==> m2.tenants[u].state == if u == t then Resumed else m.tenants[u].state)
  {
    hide Append, Without;
  }

  lemma ReconciledMore(s: State, r: State, rest: seq<Heard>, last: Heard, now: int)
    requires Inv(r) && !r.ready && Reconciled(s, r, rest) && InLoadedPool(s, last.pod) && WARM !in s.meta.tenants
    requires forall a :: !Said(rest, last.pod, a)
    ensures var r2 := Scanned(r, last.pod, last.answer, now);
            Inv(r2) && !r2.ready && Reconciled(s, r2, rest + [last])
  {
    SaidMore(rest, last);
    assert !Settled(rest, last.pod);
    if last.answer.isUnassigning {
      StillReconciled(s, r, rest, last);
    } else {
      hide Inv, CorrectedTo, MovedByAnswer;
      CorrectionFromPool(r, last.pod, last.answer, now);
      NowReconciled(s, r, Scanned(r, last.pod, last.answer, now), rest, last);
    }
  }

  lemma StillReconciled(s: State, r: State, rest: seq<Heard>, last: Heard)
    requires Reconciled(s, r, rest) && last.answer.isUnassigning
    ensures Reconciled(s, r, rest + [last])
  {
    hide Said, HasTarget, InfoOf;
    SaidMore(rest, last);
    assert forall n :: Settled(rest + [last], n) <==> Settled(rest, n);
    assert forall t :: Named(rest + [last], t) <==> Named(rest, t);
  }

  lemma NamedMore(rest: seq<Heard>, last: Heard)
    requires !last.answer.isUnassigning
    ensures forall t :: Named(rest + [last], t) <==> Named(rest, t) || t == last.answer.tenant
    ensures forall n :: Settled(rest + [last], n) <==> Settled(rest, n) || n == last.pod
  {
    hide Said;
    SaidMore(rest, last);
    assert Said(rest + [last], last.pod, last.answer);
    forall t | Named(rest, t) ensures Named(rest + [last], t) {
      var n, a :| Said(rest, n, a) && !a.isUnassigning && a.tenant == t;
      assert Said(rest + [last], n, a);
    }
    forall n | Settled(rest, n) ensures Settled(rest + [last], n) {
      var a :| Said(rest, n, a) && !a.isUnassigning;
      assert Said(rest + [last], n, a);
    }
  }

  lemma NowReconciled(s: State, r: State, r2: State, rest: seq<Heard>, last: Heard)
    requires Reconciled(s, r, rest) && InLoadedPool(s, last.pod) && !last.answer.isUnassigning
    requires WARM !in s.meta.tenants
    requires forall a :: !Said(rest, last.pod, a)
    requires MovedByAnswer(r, r2, last.pod, last.answer)
    ensures Reconciled(s, r2, rest + [last])
  {
    hide Said, InfoOf, Settled, Named;
    NamedMore(rest, last);
    SaidMore(rest, last);
    assert HasTarget(r.meta, last.answer.tenant) == HasTarget(s.meta, last.answer.tenant);
  }

  // The scan's result depends only on what was said, not on the order: every pod that gave a settled
  // answer is with the tenant it named (the pool for none), with the start time it gave, and every
  // other pod stayed in the pool; every tenant that was named is Resumed.
  lemma {:induction false} ScanReconciles(s: State, heard: seq<Heard>, now: int)
    requires Loaded(s, heard)
    ensures Inv(ScanAll(s, heard, now)) && !ScanAll(s, heard, now).ready
    ensures Reconciled(s, ScanAll(s, heard, now), heard)
  {
    if heard == [] {
    } else {
      var last := heard[|heard| - 1];
      var rest := heard[..|heard| - 1];
      assert heard == rest + [last];
      ScanReconciles(s, rest, now);
      forall a ensures !Said(rest, last.pod, a) {}
      ReconciledMore(s, ScanAll(s, rest, now), rest, last, now);
    }
  }

  // Two scans that heard the same things, in whatever order, agree on every pod's place, on every
  // tenant and its state, on the members of every container, and on the start times they are sorted by.
  lemma OrderDoesNotMatter(s: State, one: seq<Heard>, two: seq<Heard>, now: int)
    requires Loaded(s, one) && Loaded(s, two) && forall n, a :: Said(one, n, a) <==> Said(two, n, a)
    ensures var r, q := ScanAll(s, one, now), ScanAll(s, two, now);
            && r.loc == q.loc
            && r.meta.tenants.Keys == q.meta.tenants.Keys
            && (forall t :: t in r.meta.tenants ==> r.meta.tenants[t].state == q.meta.tenants[t].state)
            && (forall n, t :: n in PodsOf(r.meta, t) <==> n in PodsOf(q.meta, t))
            && (forall n :: n in r.loc && r.loc[n] != Wild ==> InfoOf(r.meta, n).stime == InfoOf(q.meta, n).stime)
  {
    hide Inv;
    ScanReconciles(s, one, now);
    ScanReconciles(s, two, now);
    SameFacts(s, ScanAll(s, one, now), ScanAll(s, two, now), one, two);
    forall n, t ensures n in PodsOf(ScanAll(s, one, now).meta, t) <==> n in PodsOf(ScanAll(s, two, now).meta, t) {
      SameMembers(ScanAll(s, one, now), ScanAll(s, two, now), n, t);
    }
  }

  lemma SameFacts(s: State, r: State, q: State, one: seq<Heard>, two: seq<Heard>)
    requires Reconciled(s, r, one) && Reconciled(s, q, two) && forall n, a :: Said(one, n, a) <==> Said(two, n, a)
    ensures r.loc == q.loc && r.meta.tenants.Keys == q.meta.tenants.Keys
    ensures forall t :: t in r.meta.tenants ==> r.meta.tenants[t].state == q.meta.tenants[t].state
    ensures forall n :: n in r.loc && r.loc[n] != Wild ==> InfoOf(r.meta, n).stime == InfoOf(q.meta, n).stime
  {
    hide Said, InfoOf;
    assert forall n :: Settled(one, n) <==> Settled(two, n);
    assert forall t :: Named(one, t) <==> Named(two, t);
    forall n | n in r.loc
      ensures r.loc[n] == q.loc[n] && (r.loc[n] != Wild ==> InfoOf(r.meta, n).stime == InfoOf(q.meta, n).stime)
    {
      if Settled(one, n) {
        var a :| Said(one, n, a) && !a.isUnassigning;
      }
    }
  }

  lemma SameMembers(r: State, q: State, n: string, t: string)
    requires Inv(r) && Inv(q) && r.loc == q.loc && r.meta.tenants.Keys == q.meta.tenants.Keys
    ensures n in PodsOf(r.meta, t) <==> n in PodsOf(q.meta, t)
  {
    if n in PodsOf(r.meta, t) { ListedMeansLocated(r, n, t); }
    if n in PodsOf(q.meta, t) { ListedMeansLocated(q, n, t); }
    assert Holds(r, n, PlaceOf(t)) <==> n in r.loc && r.loc[n] == PlaceOf(t);
    assert Holds(q, n, PlaceOf(t)) <==> n in q.loc && q.loc[n] == PlaceOf(t);
  }

  // ---------------------------------------------------------------------------------------------
  // The sort that ends the scan

  lemma SortKeepsMembers(m: Meta, m2: Meta)
    requires Rearranged(m, m2)
    ensures forall n, u :: n in PodsOf(m2, u) <==> n in PodsOf(m, u)
    ensures forall u :: NoDup(PodsOf(m, u)) ==> NoDup(PodsOf(m2, u))
  {
    hide NoDup;
  }

  lemma SortKeeps(r: State, m2: Meta)
    requires Inv(r) && Rearranged(r.meta, m2)
    ensures Inv(r.(meta := m2))
  {
    SortKeepsMembers(r.meta, m2);
    hide PodsOf, NoDup, OpValid;
    var r2 := r.(meta := m2);
    forall n, p ensures Holds(r2, n, p) <==> Holds(r, n, p) {}
    assert Located(r2);
    hide Holds, Located;
  }

  // The whole of startup: scan, then sort every tenant's list. The result is reconciled with the answers,
  // and the lists hold what the scan left in them, now by start time.
  lemma StartupEnds(s: State, heard: seq<Heard>, now: int, m2: Meta)
    requires Loaded(s, heard) && Rearranged(ScanAll(s, heard, now).meta, m2)
    ensures var r2 := ScanAll(s, heard, now).(meta := m2);
            Inv(r2) && Reconciled(s, r2, heard)
  {
    hide Inv;
    ScanReconciles(s, heard, now);
    SortKeeps(ScanAll(s, heard, now), m2);
    hide Loaded, Said, Settled, Named;
  }
}
