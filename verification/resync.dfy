// loadPods: the registry is brought in line with a listing of the cluster.
module Resync {
  import opened NameLists
  import opened MetaSpec
  import opened Protocol
  import opened Ownership
  import opened Replicas

  function Loaded(s: State, pods: seq<Listed>, now: int): State {
    if pods == [] then s
    else Evented(Loaded(s, pods[..|pods| - 1], now), pods[|pods| - 1].name, pods[|pods| - 1].ip, now)
  }

  function Purged(s: State, gone: seq<string>, now: int): State {
    if gone == [] then s else Gone(Purged(s, gone[..|gone| - 1], now), gone[|gone| - 1], now)
  }

  // loadPods, with the unlisted pods removed in the order gone.
  function Resynced(s: State, pods: seq<Listed>, gone: seq<string>, now: int): State {
    Purged(Loaded(s, pods, now), gone, now)
  }

  ghost function NamesIn(pods: seq<Listed>): set<string> {
    set i | 0 <= i < |pods| :: pods[i].name
  }

  // A listing names each pod once, and no name that was unregistered before.
  ghost predicate IsListing(s: State, pods: seq<Listed>) {
    && (forall i, j :: 0 <= i < j < |pods| ==> pods[i].name != pods[j].name)
    && (forall i :: 0 <= i < |pods| ==> pods[i].name in s.meta.registry || pods[i].name !in s.meta.info)
  }

  // gone lists the registered pods that the listing lacks.
  ghost predicate IsGone(s: State, pods: seq<Listed>, gone: seq<string>) {
    NoDup(gone) && forall n :: n in gone <==> n in s.meta.registry && n !in NamesIn(pods)
  }

  // No container holds a ghost.
  ghost predicate GhostFree(s: State) {
    forall n :: n in s.loc && Container(s.loc[n]) ==> n in s.meta.registry
  }

  // The pod is registered with its address.
  ghost predicate IsCurrent(s: State, p: Listed) {
    p.name in s.meta.registry && (p.ip == "" || InfoOf(s.meta, p.name).ip == p.ip)
  }

  ghost predicate UpToDate(s: State, pods: seq<Listed>) {
    forall i :: 0 <= i < |pods| ==> IsCurrent(s, pods[i])
  }

  lemma NamesMore(rest: seq<Listed>, last: Listed)
    ensures NamesIn(rest + [last]) == NamesIn(rest) + {last.name}
  {
    var all := rest + [last];
    assert all[|rest|] == last;
    forall n | n in NamesIn(rest) ensures n in NamesIn(all) {
      var i :| 0 <= i < |rest| && rest[i].name == n;
      assert all[i].name == n;
    }
  }

  lemma EventIsNeat(s: State, pod: string, ip: string, now: int)
    requires GhostFree(s)
    ensures GhostFree(Evented(s, pod, ip, now))
  {
    UpdateCounts(s.meta, pod, ip, now);
    hide UpdatePod;
  }

  // Loading registers exactly the listing's names on top of what was there.
  lemma {:induction false} LoadKeeps(s: State, pods: seq<Listed>, now: int)
    requires Inv(s) && IsListing(s, pods)
    ensures var r := Loaded(s, pods, now);
            && Inv(r) && r.meta.registry == s.meta.registry + NamesIn(pods)
            && (forall n :: n in r.meta.info <==> n in s.meta.info || n in NamesIn(pods))
            && (GhostFree(s) ==> GhostFree(r)) && UpToDate(r, pods)
  {
    if pods == [] {
    } else {
      var last := pods[|pods| - 1];
      var rest := pods[..|pods| - 1];
      assert pods == rest + [last];
      LoadKeeps(s, rest, now);
      NamesMore(rest, last);
      OneMoreLoaded(s, Loaded(s, rest, now), rest, last, now);
    }
  }

  lemma OneMoreLoaded(s: State, r: State, rest: seq<Listed>, last: Listed, now: int)
    requires Inv(r) && r.meta.registry == s.meta.registry + NamesIn(rest) && IsListing(s, rest + [last])
    requires forall n :: n in r.meta.info <==> n in s.meta.info || n in NamesIn(rest)
    requires UpToDate(r, rest)
    ensures var r2 := Evented(r, last.name, last.ip, now);
            && Inv(r2) && r2.meta.registry == r.meta.registry + {last.name}
            && (forall n :: n in r2.meta.info <==> n in r.meta.info || n == last.name)
            && (GhostFree(r) ==> GhostFree(r2)) && UpToDate(r2, rest + [last])
  {
    hide Inv, UpdatePod, GhostFree;
    var all := rest + [last];
    assert all[|rest|] == last;
    assert last.name !in NamesIn(rest) by {
      forall i | 0 <= i < |rest| ensures rest[i].name != last.name { assert all[i] == rest[i]; }
    }
    UpdateCounts(r.meta, last.name, last.ip, now);
    RegisteredIsKnown(r);
    InfoKeys(r.meta, last.name, last.ip, now);
    EventKeeps(r, last.name, last.ip, now);
    if GhostFree(r) { EventIsNeat(r, last.name, last.ip, now); }
    var r2 := Evented(r, last.name, last.ip, now);
    forall i | 0 <= i < |all| ensures IsCurrent(r2, all[i]) {
      if i < |rest| { assert all[i] == rest[i] && rest[i].name in NamesIn(rest); }
    }
  }

  lemma RegisteredIsKnown(s: State)
    requires Inv(s)
    ensures forall n :: n in s.meta.registry ==> n in s.meta.info
  {
  }

  lemma InfoKeys(m: Meta, pod: string, ip: string, now: int)
    requires pod in m.registry ==> pod in m.info
    ensures UpdatePod(m, pod, ip, now).info.Keys == m.info.Keys + {pod}
  {
    hide Append;
  }

  lemma {:induction false} PurgeKeeps(s: State, gone: seq<string>, now: int)
    requires Inv(s)
    ensures var r := Purged(s, gone, now);
            && Inv(r) && r.meta.registry == s.meta.registry - ToSet(gone)
            && (GhostFree(s) ==> GhostFree(r))
            && (forall n :: InfoOf(r.meta, n).ip == InfoOf(s.meta, n).ip)
  {
    hide Inv, Gone, GhostFree;
    if gone == [] {
    } else {
      var last := gone[|gone| - 1];
      var rest := gone[..|gone| - 1];
      assert gone == rest + [last];
      PurgeKeeps(s, rest, now);
      var r := Purged(s, rest, now);
      GoneKeeps(r, last, now);
      GoneCounts(r, last, now);
      if GhostFree(r) { GoneIsNeat(r, last, now); }
    }
  }

  lemma GoneCounts(s: State, pod: string, now: int)
    ensures Gone(s, pod, now).meta.registry == s.meta.registry - {pod}
    ensures forall n :: InfoOf(Gone(s, pod, now).meta, n).ip == InfoOf(s.meta, n).ip
  {
    UnregisterCounts(s.meta, pod, now);
    hide Unregister;
  }

  lemma GoneIsNeat(s: State, pod: string, now: int)
    requires GhostFree(s)
    ensures GhostFree(Gone(s, pod, now))
  {
    UnregisterCounts(s.meta, pod, now);
    hide Unregister;
  }

  // After loadPods the registered pods are exactly the listed ones and no container holds any other;
  // every listed address is recorded; and loading the same listing again changes nothing at all.
  lemma LoadPodsResyncs(s: State, pods: seq<Listed>, gone: seq<string>, now: int, later: int)
    requires Inv(s) && GhostFree(s) && IsListing(s, pods) && IsGone(s, pods, gone)
    ensures var r := Resynced(s, pods, gone, now);
            && Inv(r) && r.meta.registry == NamesIn(pods)
            && (forall n, t :: n in PodsOf(r.meta, t) ==> n in NamesIn(pods))
            && UpToDate(r, pods)
            && IsGone(r, pods, []) && Resynced(r, pods, [], later) == r
  {
    hide Inv, Evented, Gone;
    var l := Loaded(s, pods, now);
    LoadKeeps(s, pods, now);
    PurgeKeeps(l, gone, now);
    var r := Resynced(s, pods, gone, now);
    assert ToSet(gone) == s.meta.registry - NamesIn(pods);
    assert r.meta.registry == NamesIn(pods);
    forall i | 0 <= i < |pods| ensures pods[i].name in NamesIn(pods) {}
    forall n, t | n in PodsOf(r.meta, t) ensures n in NamesIn(pods) { ListedIsRegistered(r, n, t); }
    RegisteredIsKnown(r);
    LoadAgain(r, pods, later);
  }

  lemma ListedIsRegistered(s: State, n: string, t: string)
    requires Inv(s) && GhostFree(s) && n in PodsOf(s.meta, t)
    ensures n in s.meta.registry
  {
    ListedMeansLocated(s, n, t);
  }

  lemma {:induction false} LoadAgain(r: State, pods: seq<Listed>, later: int)
    requires UpToDate(r, pods) && forall n :: n in r.meta.registry ==> n in r.meta.info
    ensures Loaded(r, pods, later) == r
  {
    if pods == [] {
    } else {
      LoadAgain(r, pods[..|pods| - 1], later);
      EventAgain(r, pods[|pods| - 1], later);
    }
  }

  lemma EventAgain(r: State, p: Listed, later: int)
    requires p.name in r.meta.registry && p.name in r.meta.info && (p.ip == "" || InfoOf(r.meta, p.name).ip == p.ip)
    ensures Evented(r, p.name, p.ip, later) == r
  {
    assert r.meta.info[p.name := r.meta.info[p.name]] == r.meta.info;
  }

  // ---------------------------------------------------------------------------------------------
  // The same on the bookkeeping value alone, which is what the class methods are proved against

  lemma {:induction false} LoadedIsLoadAll(s: State, pods: seq<Listed>, now: int)
    ensures Loaded(s, pods, now).meta == LoadAll(s.meta, pods, now)
  {
    hide UpdatePod;
    if pods != [] { LoadedIsLoadAll(s, pods[..|pods| - 1], now); }
  }

  lemma {:induction false} PurgedIsUnregisterAll(s: State, gone: seq<string>, now: int)
    requires NoDup(gone) && forall n :: n in gone ==> n in s.meta.registry
    ensures Purged(s, gone, now).meta == UnregisterAll(s.meta, gone, now)
    ensures Purged(s, gone, now).meta.registry == s.meta.registry - ToSet(gone)
  {
    if gone != [] {
      var last := gone[|gone| - 1];
      var rest := gone[..|gone| - 1];
      assert gone == rest + [last] && last !in rest;
      PurgedIsUnregisterAll(s, rest, now);
      GoneCounts(Purged(s, rest, now), last, now);
      hide Unregister, InHands;
    }
  }

  // What LoadPods and then TryToRemoveExpriedPod leave is the bookkeeping of the resynced state.
  lemma ResyncedMeta(s: State, pods: seq<Listed>, gone: seq<string>, now: int)
    requires Inv(s) && IsListing(s, pods) && IsGone(Loaded(s, pods, now), pods, gone)
    ensures Resynced(s, pods, gone, now).meta == UnregisterAll(LoadAll(s.meta, pods, now), gone, now)
    ensures IsGone(s, pods, gone)
  {
    hide Inv;
    LoadKeeps(s, pods, now);
    LoadedIsLoadAll(s, pods, now);
    PurgedIsUnregisterAll(Loaded(s, pods, now), gone, now);
  }

  // ---------------------------------------------------------------------------------------------
  // New pods are counted once

  lemma AddressStays(s: State, e: Step, n: string)
    requires Inv(s) && Enabled(s, e) && InfoOf(s.meta, n).ip != ""
    ensures InfoOf(Apply(s, e).meta, n).ip != ""
  {
    StepCounts(s, e, n);
  }

  lemma StepCounts(s: State, e: Step, n: string)
    requires Inv(s) && Enabled(s, e)
    ensures InfoOf(Apply(s, e).meta, n).ip == InfoOf(s.meta, n).ip || (e.PodEvent? && e.pod == n)
    ensures e.PodEvent? && e.pod == n && InfoOf(s.meta, n).ip != "" ==> InfoOf(Apply(s, e).meta, n).ip != ""
    ensures e.PodEvent? && e.pod == n && e.ip != "" ==> InfoOf(Apply(s, e).meta, n).ip != ""
  {
    hide Inv, PodsOf, Warmed, Popped, Move, Settle, InHands, Swap, PutAt, PutWarmed, Correct, TakeWarmed, Pop;
    hide UndoAll, PutBack, Unregister, UpdatePod, InfoOf;
    match e
    case PodEvent(pod, ip, now) => UpdateCounts(s.meta, pod, ip, now); EventKnown(s, pod);
    case PodGone(pod, now) => UnregisterCounts(s.meta, pod, now);
    case ScanAnswered(pod, a, now) => CorrectKeepsCounts(s.meta, pod, a.tenant, a.stime, now);
    case Begin(op, now) => BeginCounts(s, op, now);
    case Replied(op, pod, reply, now) => ReplyCounts(s, op, pod, reply, now);
    case Finish(op, now) => FinishCounts(s, op, now);
    case DelayOver(pod, now) => PutKeepsCounts(s.meta, s.delayed[pod], pod, WARM, 0, now);
    case ShrinkAsked(cnt, now) => TakeKeepsCounts(s.meta, WARM, cnt, now);
    case ShrinkAnswered(committed, now) => PutBackKeepsCounts(s.meta, s.warming.chosen, now);
    case _ => OtherInfos(s, e, n);
  }

  lemma EventKnown(s: State, pod: string)
    ensures InfoOf(s.meta, pod).ip != "" ==> pod in s.meta.info
  {
  }

  lemma OtherInfos(s: State, e: Step, n: string)
    requires Enabled(s, e)
    requires e.SetupTenant? || e.BecomeReady? || e.AskPause? || e.AskResume? || e.AskResize? || e.GrowAsked? ||
             e.GrowAnswered?
    ensures InfoOf(Apply(s, e).meta, n) == InfoOf(s.meta, n)
  {
  }

  lemma {:induction false} AddressStaysOverRuns(s: State, steps: seq<Step>, trace: seq<State>, i: nat, j: nat,
                                                n: string)
    requires Inv(s) && IsRun(s, steps, trace) && i <= j <= |steps| && InfoOf(trace[i].meta, n).ip != ""
    ensures InfoOf(trace[j].meta, n).ip != ""
  {
    if i < j {
      AddressStaysOverRuns(s, steps, trace, i, j - 1, n);
      RunKeeps(s, steps, trace, j - 1);
      AddressStays(trace[j - 1], steps[j - 1], n);
    }
  }

  // Over any run, at most one event per pod is counted as the arrival of a new pod.
  lemma CountedOnce(s: State, steps: seq<Step>, trace: seq<State>, i: nat, j: nat)
    requires Inv(s) && IsRun(s, steps, trace) && i < j < |steps|
    requires Arrives(trace[i], steps[i]) && Arrives(trace[j], steps[j])
    ensures steps[i].pod != steps[j].pod
  {
    hide Inv, Apply;
    var n := steps[i].pod;
    RunKeeps(s, steps, trace, i);
    StepCounts(trace[i], steps[i], n);
    AddressStaysOverRuns(s, steps, trace, i + 1, j, n);
    assert Enabled(trace[j], steps[j]);
  }
}
