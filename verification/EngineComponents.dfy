/**
 What was proved of each component by itself holds of all of them inside the engine,
 in every run, without the assumptions on their surroundings: every process keeps its
 timer discipline, every group its loader invariant, and both managers announce their
 spare capacity.
 */
module EngineComponents {
  import opened Keys
  import opened EngineModel
  import opened EngineSafety
  import opened EngineSteps
  import opened EngineWakeups
  import G = GroupModel
  import M = ManagerModel
  import I = ManagerIndexes
  import W = ManagerWakeups
  import P = ProcessModel

  // ----- how many processes a group asks for -----

  /** The live processes of a group that are neither ready nor busy yet. */
  ghost function Coming(s: Sys, g: nat, b: bool): set<nat> {
    var t := Mgr(s, b).t;
    if g !in t.groups then {}
    else set n | n in t.groups[g]
                 && !(M.Listed(t, n) && M.EntryOf(t, n).pid < |s.procs|
                      && var state := s.procs[M.EntryOf(t, n).pid].state; state == P.Listening || state == P.Busy)
  }

  lemma CountsComing(s: Sys, g: nat, b: bool)
    ensures var c := CountsFor(s, g, b);
            c.active <= c.live && c.live - c.active == |Coming(s, g, b)|
  {
    var t := Mgr(s, b).t;
    if g in t.groups {
      var active := set n | n in t.groups[g] && Active(s.procs, t, n);
      assert t.groups[g] == active + Coming(s, g, b) && active !! Coming(s, g, b);
    }
  }

  /** A ready group that takes a manager's response asks it for just as many processes as its queue is longer than the
      processes that are still to become ready, and for none if it is not longer. */
  lemma AsksForMissing(s: Sys, g: nat, b: bool, i: nat)
    requires MayGroup(s, g, TakeReady(b, i))
    ensures var missing := |G.Ctl(s.groups[g], b).queue| - |Coming(s, g, b)|;
            Mgr(DoGroup(s, g, TakeReady(b, i)), b).inbox ==
              Mgr(s, b).inbox + if s.groups[g].load == G.Ready && missing > 0 then [M.GetProcess(g, missing)] else []
  {
    CountsComing(s, g, b);
    var inbox := Mgr(s, b).inbox;
    assert inbox + [] == inbox;
    hide CountsFor, Coming;
  }

  // ----- spare capacity -----

  ghost predicate Announced(s: Sys, b: bool) {
    W.SlotsAnnounced(Mgr(s, b))
  }

  /** In the engine a creation always gets its user. */
  lemma ManagerReliable(s: Sys, isOrig: bool, act: ManagerAct)
    requires Wired(s) && MayManager(s, isOrig, act)
    ensures W.Reliable(ManagerEvent(s, isOrig, act))
  {
    if act.Create? || act.Launch? {
      MakingEnabled(s, isOrig, act);
    }
    hide Wired;
  }

  lemma ManagerAnnounces(s: Sys, isOrig: bool, act: ManagerAct, b: bool)
    requires Wired(s) && MayManager(s, isOrig, act) && Announced(s, b)
    ensures Announced(DoManager(s, isOrig, act), b)
  {
    ManagerEnabled(s, isOrig, act);
    ManagerReliable(s, isOrig, act);
    ManagerGood(s, isOrig);
    hide Wired, MayManager, M.Apply, M.Enabled, M.Runnable, W.SlotsAnnounced, I.Good, ManagerEvent, UsersAfter,
      ProcsAfter;
    if b == isOrig {
      W.SlotsStep(Mgr(s, isOrig), ManagerEvent(s, isOrig, act));
    }
  }

  lemma NoticeAnnounces(m: M.Manager, m': M.Manager)
    requires I.Good(m) && W.SlotsAnnounced(m)
    requires m' == m || exists ev :: Notice(ev) && M.Enabled(m, ev) && M.Runnable(m, ev) && m' == M.Apply(m, ev)
    ensures W.SlotsAnnounced(m')
  {
    hide I.Good, W.SlotsAnnounced, M.Apply, M.Enabled, M.Runnable;
    if m' != m {
      var ev :| Notice(ev) && M.Enabled(m, ev) && M.Runnable(m, ev) && m' == M.Apply(m, ev);
      W.SlotsStep(m, ev);
    }
  }

  lemma ProcAnnounces(s: Sys, pid: nat, act: ProcAct, b: bool)
    requires Wired(s) && MayProc(s, pid, act) && Announced(s, b)
    ensures Announced(DoProc(s, pid, act), b)
  {
    hide Wired, DoProc, P.Apply, M.Apply, M.Enabled, M.Runnable, ManagerAfterProc, W.SlotsAnnounced, I.Good, ProcEvent;
    var p := s.procs[pid];
    ProcShape(s, pid, act);
    if b == p.isOrig {
      NoticeEnabled(s, pid, act);
      ManagerGood(s, b);
      NoticeAnnounces(Mgr(s, b), ManagerAfterProc(Mgr(s, b), p, act, P.Apply(p, ProcEvent(s, p, act)).1));
    }
  }

  lemma AskAnnounces(m: M.Manager, g: nat, num: nat)
    requires W.SlotsAnnounced(m)
    ensures W.SlotsAnnounced(AskFor(m, g, num))
  {
  }

  lemma GroupAnnounces(s: Sys, g: nat, act: GroupAct, b: bool)
    requires MayGroup(s, g, act) && Announced(s, b)
    ensures Announced(DoGroup(s, g, act), b)
  {
    var o := G.Apply(s.groups[g], GroupEvent(s, g, act));
    assert W.SlotsAnnounced(Before(s, act, b));
    AskAnnounces(Before(s, act, b), g, AskOf(o, b));
    hide G.Apply, GroupEvent, W.SlotsAnnounced;
  }

  lemma StepAnnounces(s: Sys, l: Label, b: bool)
    requires Wired(s) && May(s, l) && Announced(s, b)
    ensures Announced(Next(s, l), b)
  {
    match l
    case OfGroup(g, act) => hide Wired, DoGroup, Announced; GroupAnnounces(s, g, act, b);
    case OfManager(c, act) => hide Wired, DoManager, Announced; ManagerAnnounces(s, c, act, b);
    case OfProc(pid, act) => hide Wired, DoProc, Announced; ProcAnnounces(s, pid, act, b);
    case _ => hide Wired, ContractKey;
  }

  // ----- processes and groups -----

  ghost predicate Timed(s: Sys) {
    forall i :: 0 <= i < |s.procs| ==> P.Disciplined(s.procs[i])
  }

  ghost predicate Loaded(s: Sys) {
    forall i :: 0 <= i < |s.groups| ==> G.Loading(s.groups[i])
  }

  lemma ManagerTimes(s: Sys, isOrig: bool, act: ManagerAct)
    requires MayManager(s, isOrig, act) && Timed(s)
    ensures Timed(DoManager(s, isOrig, act))
  {
    var procs := ProcsAfter(s, isOrig, act);
    assert forall i :: 0 <= i < |procs| ==> P.Disciplined(procs[i]) by { hide M.SameContract; }
    ManagerRuns(s, isOrig, act);
    hide MayManager, ProcsAfter, UsersAfter, M.Apply, ManagerEvent;
  }

  lemma StepTimes(s: Sys, l: Label)
    requires May(s, l) && Timed(s)
    ensures Timed(Next(s, l))
  {
    match l
    case OfManager(b, act) => hide Timed, DoManager; ManagerTimes(s, b, act);
    case OfProc(pid, act) =>
      P.TimerStep(s.procs[pid], ProcEvent(s, s.procs[pid], act));
      ProcShape(s, pid, act);
      hide DoProc, P.Apply, P.Disciplined, ProcEvent;
    case _ => hide P.Disciplined, ContractKey;
  }

  lemma ProcLoads(s: Sys, p: P.Proc, act: ProcAct, e: P.Effects, i: nat)
    requires Loaded(s) && i < |GroupsAfterProc(s, p, act, e)|
    ensures G.Loading(GroupsAfterProc(s, p, act, e)[i])
  {
  }

  lemma StepLoads(s: Sys, l: Label)
    requires May(s, l) && Loaded(s)
    ensures Loaded(Next(s, l))
  {
    match l
    case OfGroup(g, act) =>
      G.LoadingStep(s.groups[g], GroupEvent(s, g, act));
      hide G.Apply, G.Loading, GroupEvent;
    case OfProc(pid, act) =>
      var p := s.procs[pid];
      var e := P.Apply(p, ProcEvent(s, p, act)).1;
      ProcShape(s, pid, act);
      hide DoProc, P.Apply, G.Loading, GroupsAfterProc, ProcEvent;
      forall i | 0 <= i < |GroupsAfterProc(s, p, act, e)| ensures G.Loading(GroupsAfterProc(s, p, act, e)[i]) {
        ProcLoads(s, p, act, e, i);
      }
    case OfManager(b, act) => hide G.Loading, MayManager, M.Apply, ManagerEvent, ProcsAfter, UsersAfter;
    case _ => hide ContractKey;
  }

  // ----- runs -----

  lemma {:induction false} RunKeeps(s: Sys, ls: seq<Label>)
    requires Wired(s) && Announced(s, true) && Announced(s, false) && Timed(s) && Loaded(s) && Possible(s, ls)
    ensures var r := After(s, ls); Wired(r) && Announced(r, true) && Announced(r, false) && Timed(r) && Loaded(r)
    decreases |ls|
  {
    hide Wired, Announced, Timed, Loaded, May, Next;
    if ls != [] {
      StepWired(s, ls[0]);
      StepAnnounces(s, ls[0], true);
      StepAnnounces(s, ls[0], false);
      StepTimes(s, ls[0]);
      StepLoads(s, ls[0]);
      RunKeeps(Next(s, ls[0]), ls[1..]);
    }
  }

  /** In every run of the engine: no popTimer of any process can block, and a tick handled while listening or busy is
      that state's own; every group buffers only while it waits for bytecode, with its timer armed or its tick pending;
      and whenever a manager's lock is free and a group waits, no slot is free or a token announces it. */
  lemma ComponentsKeepTheirPromises(limit: nat, maxOrig: nat, rate: real, uids: seq<nat>, ls: seq<Label>)
    requires Configured(limit, maxOrig, uids) && Possible(Initial(limit, maxOrig, rate, uids), ls)
    ensures var s := After(Initial(limit, maxOrig, rate, uids), ls);
            && (forall i :: 0 <= i < |s.procs| ==>
                  var p := s.procs[i];
                  !P.PopBlocks(p.clock) && (p.clock.popped ==> !p.clock.tick)
                  && (p.clock.tick && (p.state == P.Listening || p.state == P.Busy) ==> p.clock.since == p.state))
            && (forall i :: 0 <= i < |s.groups| ==>
                  var g := s.groups[i];
                  (g.buf != [] ==> g.load == G.Waiting) && (g.load == G.Waiting <==> g.timer.armed || g.timer.tick))
            && (forall b: bool :: Mgr(s, b).job.NoJob? && Mgr(s, b).desk.waiting != [] ==>
                  M.Available(Mgr(s, b)) == 0 || Mgr(s, b).newTokens > 0)
  {
    var s0 := Initial(limit, maxOrig, rate, uids);
    InitialWired(limit, maxOrig, rate, uids);
    RunKeeps(s0, ls);
    var s := After(s0, ls);
    hide Wired, Possible;
    assert Announced(s, true) && Announced(s, false);
    assert forall i :: 0 <= i < |s.procs| ==> P.Disciplined(s.procs[i]);
    assert forall i :: 0 <= i < |s.groups| ==> G.Loading(s.groups[i]);
  }
}
