/**
 No lost wake-up across groups and managers: while a group's flag stops it from
 asking again, its request is still with the manager or the answer is on its way;
 and a ready group with queued transactions and no flag has a process of its own
 or a response coming.
 */
module EngineWakeups {
  import opened Keys
  import opened Transactions
  import opened EngineModel
  import opened EngineSafety
  import opened EngineSteps
  import G = GroupModel
  import M = ManagerModel
  import I = ManagerIndexes
  import W = ManagerWakeups
  import P = ProcessModel

  /** The group would run its queue but has no request out. */
  predicate Hungry(g: G.Group, isOrig: bool) {
    g.load == G.Ready && !g.blocked && G.Ctl(g, isOrig).queue != [] && !G.Ctl(g, isOrig).waiting
  }

  predicate Cared(m: M.Manager, g: G.Group, i: nat, isOrig: bool) {
    (G.Ctl(g, isOrig).waiting ==> W.Attended(m, i)) && (Hungry(g, isOrig) ==> W.Provided(m, i))
  }

  ghost predicate AllCared(s: Sys, isOrig: bool) {
    forall i :: 0 <= i < |s.groups| ==> Cared(Mgr(s, isOrig), s.groups[i], i, isOrig)
  }

  // ----- one group -----

  function AskOf(o: G.Out, isOrig: bool): nat {
    if isOrig then o.askOrig else o.askCross
  }

  /** The counts that the event shows of one manager. */
  function Shown(ev: G.Event, isOrig: bool): G.Counts {
    match ev
    case TakeMsg(_, _, co, cc) => if isOrig then co else cc
    case TakeReady(b, c) => if b == isOrig then c else G.Counts(0, 0)
    case _ => G.Counts(0, 0)
  }

  /** Looking for processes sets the flag only with a request, and leaves a group hungry only if it saw a process. */
  lemma LookingCares(g: G.Group, b: bool, c: G.Counts, isOrig: bool)
    ensures var o := G.GetProcesses(g, b, c);
            && o.g == G.WithCtl(g, b, G.Ctl(o.g, b)) && G.Ctl(o.g, b).queue == G.Ctl(g, b).queue
            && (G.Ctl(o.g, isOrig).waiting ==> G.Ctl(g, isOrig).waiting || AskOf(o, isOrig) > 0)
            && (b == isOrig && Hungry(o.g, isOrig) ==> c.live > 0)
            && (b != isOrig ==> AskOf(o, isOrig) == 0 && G.Ctl(o.g, isOrig) == G.Ctl(g, isOrig))
  {
  }

  /** What an event may do to a group's flag and to its being hungry. */
  ghost predicate Caring(g: G.Group, o: G.Out, taken: bool, live: nat, isOrig: bool) {
    && (G.Ctl(o.g, isOrig).waiting ==> (G.Ctl(g, isOrig).waiting && !taken) || AskOf(o, isOrig) > 0)
    && (Hungry(o.g, isOrig) ==> (Hungry(g, isOrig) && !taken) || live > 0)
  }

  lemma TxCares(g: G.Group, tx: Tx, limit: nat, c: G.Counts, isOrig: bool)
    ensures Caring(g, G.HandleTx(g, tx, limit, c), false, if IsOrig(tx) == isOrig then c.live else 0, isOrig)
  {
    LookingCares(G.Enqueue(g, tx), IsOrig(tx), c, isOrig);
    hide G.GetProcesses;
  }

  lemma CodeCares(g: G.Group, ok: bool, now: int, co: G.Counts, cc: G.Counts, isOrig: bool)
    ensures Caring(g, G.HandleCode(g, ok, now, co, cc), false, if isOrig then co.live else cc.live, isOrig)
  {
    var g1 := g.(timer := G.Timer(false, false), load := G.Ready, version := now, buf := []);
    G.DrainQueues(g1, g.buf);
    var g2 := G.EnqueueAll(g1, g.buf);
    var o := G.GetProcesses(g2, true, co);
    LookingCares(g2, true, co, isOrig);
    LookingCares(o.g, false, cc, isOrig);
    hide G.GetProcesses, G.EnqueueAll;
  }

  /** The flag is set only with a request, and a group stops being hungry, or stays it, or sees a process. */
  lemma GroupCares(g: G.Group, ev: G.Event, isOrig: bool)
    requires G.Enabled(g, ev)
    ensures var o := G.Apply(g, ev);
            var taken := ev.TakeReady? && ev.isOrig == isOrig;
            && (G.Ctl(o.g, isOrig).waiting ==> (G.Ctl(g, isOrig).waiting && !taken) || AskOf(o, isOrig) > 0)
            && (Hungry(o.g, isOrig) ==> (Hungry(g, isOrig) && !taken) || Shown(ev, isOrig).live > 0)
  {
    hide G.HandleTx, G.HandleCode, G.GetProcesses;
    match ev
    case TakeMsg(limit, now, co, cc) =>
      var g1 := g.(inbox := g.inbox[1..]);
      if g.inbox[0].TxMsg? {
        TxCares(g1, g.inbox[0].tx, limit, if IsOrig(g.inbox[0].tx) then co else cc, isOrig);
      } else {
        CodeCares(g1, g.inbox[0].ok, now, co, cc, isOrig);
      }
    case TakeReady(b, c) => LookingCares(G.WithCtl(g, b, G.Ctl(g, b).(waiting := false)), b, c, isOrig);
    case _ =>
  }

  // ----- manager events -----

  /** A manager's own event, which delivers nothing to the group, cares for it as before. */
  lemma EventCares(m: M.Manager, ev: M.Event, g: G.Group, g': G.Group, i: nat, isOrig: bool)
    requires I.Good(m) && M.Enabled(m, ev) && M.Runnable(m, ev) && !W.DeliveredTo(m, ev, i) && Cared(m, g, i, isOrig)
    requires (G.Ctl(g', isOrig).waiting ==> G.Ctl(g, isOrig).waiting) && (Hungry(g', isOrig) ==> Hungry(g, isOrig))
    ensures Cared(M.Apply(m, ev), g', i, isOrig)
  {
    hide I.Good, W.Attended, W.Provided, M.Enabled, M.Runnable, M.Apply, Hungry;
    if G.Ctl(g', isOrig).waiting {
      W.AttendedStep(m, ev, i);
    }
    if Hungry(g', isOrig) {
      W.ProvidedStep(m, ev, i);
    }
  }

  lemma ManagerCares(s: Sys, isOrig: bool, act: ManagerAct, b: bool)
    requires Wired(s) && MayManager(s, isOrig, act) && AllCared(s, b)
    ensures AllCared(DoManager(s, isOrig, act), b)
  {
    ManagerEnabled(s, isOrig, act);
    WiredSides(s, isOrig);
    var m := Mgr(s, isOrig);
    var ev := ManagerEvent(s, isOrig, act);
    var r := DoManager(s, isOrig, act);
    assert !ev.Deliver? && Mgr(r, isOrig) == M.Apply(m, ev) && Mgr(r, !isOrig) == Mgr(s, !isOrig) &&
      r.groups == s.groups;
    hide Wired, MayManager, DoManager, Cared, M.Apply, M.Enabled, M.Runnable, Side, PoolFor;
    assert I.Good(m) by { ManagerGood(s, isOrig); }
    forall i | 0 <= i < |r.groups| ensures Cared(Mgr(r, b), r.groups[i], i, b) {
      assert Cared(Mgr(s, b), s.groups[i], i, b);
      if b == isOrig {
        EventCares(m, ev, s.groups[i], s.groups[i], i, b);
      }
    }
  }

  lemma ManagerGood(s: Sys, isOrig: bool)
    requires Wired(s)
    ensures I.Good(Mgr(s, isOrig)) && |Mgr(s, isOrig).known| == |s.groups|
  {
    WiredSides(s, isOrig);
    hide I.Good;
  }

  // ----- process steps -----

  /** Taking a transaction, or hearing of a bad contract, sets no flag and makes no group hungry. */
  lemma ProcGroupsCalm(s: Sys, p: P.Proc, act: ProcAct, e: P.Effects, i: nat, b: bool)
    requires i < |GroupsAfterProc(s, p, act, e)|
    ensures i < |s.groups|
    ensures var groups := GroupsAfterProc(s, p, act, e);
            && |groups| == |s.groups|
            && (G.Ctl(groups[i], b).waiting ==> G.Ctl(s.groups[i], b).waiting)
            && (Hungry(groups[i], b) ==> Hungry(s.groups[i], b))
  {
  }

  /** What a manager hears from a process. */
  predicate Notice(ev: M.Event) {
    ev.MarkIdle? || ev.MarkBusy? || ev.ReportExit?
  }

  /** The event by which a process step reaches its manager is one the manager expects. */
  lemma NoticeEnabled(s: Sys, pid: nat, act: ProcAct)
    requires Wired(s) && MayProc(s, pid, act)
    ensures var p := s.procs[pid]; var m := Mgr(s, p.isOrig); var e := P.Apply(p, ProcEvent(s, p, act)).1;
            var r := ManagerAfterProc(m, p, act, e);
            r == m || exists ev :: Notice(ev) && M.Enabled(m, ev) && M.Runnable(m, ev) && r == M.Apply(m, ev)
  {
    var p := s.procs[pid];
    var m := Mgr(s, p.isOrig);
    if act.ReadyTimeout? {
      assert Notice(M.MarkIdle(p.id)) && M.Enabled(m, M.MarkIdle(p.id)) && M.Runnable(m, M.MarkIdle(p.id));
    } else if act.IdleReturn? {
      assert Notice(M.MarkBusy(p.id)) && M.Enabled(m, M.MarkBusy(p.id)) && M.Runnable(m, M.MarkBusy(p.id));
    } else if P.Apply(p, ProcEvent(s, p, act)).1.exit {
      ExitReported(s, pid, act);
      assert Notice(M.ReportExit(p.group, p.id)) && M.Enabled(m, M.ReportExit(p.group, p.id)) &&
        M.Runnable(m, M.ReportExit(p.group, p.id));
    }
    hide Wired, P.Apply, M.Apply, MayProc, M.Enabled, M.Runnable;
  }

  /** The manager after a process step cares for a group as before. */
  lemma NoticeCares(s: Sys, pid: nat, act: ProcAct, g: G.Group, i: nat)
    requires Wired(s) && MayProc(s, pid, act) && i < |s.groups|
    requires var b := s.procs[pid].isOrig;
             && Cared(Mgr(s, b), s.groups[i], i, b)
             && (G.Ctl(g, b).waiting ==> G.Ctl(s.groups[i], b).waiting) && (Hungry(g, b) ==> Hungry(s.groups[i], b))
    ensures var p := s.procs[pid]; var e := P.Apply(p, ProcEvent(s, p, act)).1;
            Cared(ManagerAfterProc(Mgr(s, p.isOrig), p, act, e), g, i, p.isOrig)
  {
    var p := s.procs[pid];
    var m := Mgr(s, p.isOrig);
    var e := P.Apply(p, ProcEvent(s, p, act)).1;
    NoticeEnabled(s, pid, act);
    ManagerGood(s, p.isOrig);
    hide Wired, MayProc, M.Apply, M.Enabled, M.Runnable, P.Apply, ManagerAfterProc, I.Good, W.Attended, W.Provided,
      Hungry, ProcEvent;
    var m' := ManagerAfterProc(m, p, act, e);
    if m' != m {
      var ev :| Notice(ev) && M.Enabled(m, ev) && M.Runnable(m, ev) && m' == M.Apply(m, ev);
      EventCares(m, ev, s.groups[i], g, i, p.isOrig);
    }
  }

  lemma ProcCares(s: Sys, pid: nat, act: ProcAct, b: bool)
    requires Wired(s) && MayProc(s, pid, act) && AllCared(s, b)
    ensures AllCared(DoProc(s, pid, act), b)
  {
    var p := s.procs[pid];
    var e := P.Apply(p, ProcEvent(s, p, act)).1;
    var r := DoProc(s, pid, act);
    hide Wired, DoProc, P.Apply, ManagerAfterProc, GroupsAfterProc, W.Attended, W.Provided, Hungry, ProcEvent;
    ProcShape(s, pid, act);
    forall i | 0 <= i < |r.groups| ensures Cared(Mgr(r, b), r.groups[i], i, b) {
      ProcGroupsCalm(s, p, act, e, i, b);
      assert Cared(Mgr(s, b), s.groups[i], i, b);
      if b == p.isOrig {
        NoticeCares(s, pid, act, r.groups[i], i);
      }
    }
  }

  // ----- group steps -----

  /** A request that has been sent is attended to. */
  lemma AskAttended(m: M.Manager, i: nat, num: nat)
    requires num > 0
    ensures W.Attended(AskFor(m, i, num), i)
  {
    var inbox := AskFor(m, i, num).inbox;
    assert inbox[|m.inbox|] == M.GetProcess(i, num);
    assert W.Asked(inbox, i);
  }

  lemma AskCares(m: M.Manager, g: G.Group, j: nat, num: nat, i: nat, isOrig: bool)
    requires I.Good(m) && j < |m.known| && Cared(m, g, i, isOrig)
    ensures Cared(AskFor(m, j, num), g, i, isOrig)
  {
    if num > 0 {
      hide I.Good, Cared, Hungry;
      EventCares(m, M.Ask(j, num), g, g, i, isOrig);
    }
  }

  lemma DeliverKeepsGood(m: M.Manager, k: nat)
    requires I.Good(m) && k < |m.desk.outbox|
    ensures I.Good(M.Apply(m, M.Deliver(k))) && M.Apply(m, M.Deliver(k)).known == m.known
  {
    I.StepGood(m, M.Deliver(k));
    hide I.Good;
  }

  /** The manager before the group's request: the response is taken out. */
  function Before(s: Sys, act: GroupAct, isOrig: bool): M.Manager
    requires act.TakeReady? ==> act.i < |Mgr(s, act.isOrig).desk.outbox|
  {
    if act.TakeReady? && act.isOrig == isOrig then M.Apply(Mgr(s, isOrig), M.Deliver(act.i)) else Mgr(s, isOrig)
  }

  /** Another group's step. */
  lemma OthersCared(s: Sys, g: nat, act: GroupAct, num: nat, i: nat, b: bool)
    requires Wired(s) && MayGroup(s, g, act) && i < |s.groups| && i != g
    requires Cared(Mgr(s, b), s.groups[i], i, b)
    ensures Cared(ManagerAfterGroup(s, g, act, b, num), s.groups[i], i, b)
  {
    ManagerGood(s, b);
    var m := Mgr(s, b);
    if act.TakeReady? && act.isOrig == b {
      DeliverKeepsGood(m, act.i);
      assert !W.DeliveredTo(m, M.Deliver(act.i), i);
      EventCares(m, M.Deliver(act.i), s.groups[i], s.groups[i], i, b);
    }
    hide I.Good, Cared, Wired, M.Apply;
    AskCares(Before(s, act, b), s.groups[i], g, num, i, b);
  }

  lemma CountsShowProcess(s: Sys, g: nat, act: GroupAct, b: bool)
    requires MayGroup(s, g, act) && Shown(GroupEvent(s, g, act), b).live > 0
    ensures g in Mgr(s, b).t.groups
  {
  }

  /** The group's own step. */
  lemma SelfCared(s: Sys, g: nat, act: GroupAct, b: bool)
    requires Wired(s) && MayGroup(s, g, act) && Cared(Mgr(s, b), s.groups[g], g, b)
    ensures var o := G.Apply(s.groups[g], GroupEvent(s, g, act));
            Cared(ManagerAfterGroup(s, g, act, b, AskOf(o, b)), o.g, g, b)
  {
    var ev := GroupEvent(s, g, act);
    var o := G.Apply(s.groups[g], ev);
    GroupCares(s.groups[g], ev, b);
    ManagerGood(s, b);
    var m := Before(s, act, b);
    assert AskFor(m, g, AskOf(o, b)).t == Mgr(s, b).t;
    var taken := act.TakeReady? && act.isOrig == b;
    assert taken <==> (ev.TakeReady? && ev.isOrig == b);
    hide Wired, G.Apply, CountsFor, Shown, I.Good, M.Apply, W.Attended, Hungry;
    if Shown(ev, b).live > 0 {
      CountsShowProcess(s, g, act, b);
    }
    if AskOf(o, b) > 0 {
      AskAttended(m, g, AskOf(o, b));
    }
    if !taken {
      AskCares(m, s.groups[g], g, AskOf(o, b), g, b);
    }
  }

  lemma GroupStepCares(s: Sys, g: nat, act: GroupAct, b: bool)
    requires Wired(s) && MayGroup(s, g, act) && AllCared(s, b)
    ensures AllCared(DoGroup(s, g, act), b)
  {
    var o := G.Apply(s.groups[g], GroupEvent(s, g, act));
    var r := DoGroup(s, g, act);
    assert Mgr(r, b) == ManagerAfterGroup(s, g, act, b, AskOf(o, b)) && r.groups == s.groups[g := o.g];
    hide Wired, G.Apply, GroupEvent, MayGroup, DoGroup, Cared, ManagerAfterGroup;
    forall i | 0 <= i < |r.groups| ensures Cared(Mgr(r, b), r.groups[i], i, b) {
      assert Cared(Mgr(s, b), s.groups[i], i, b);
      if i == g {
        SelfCared(s, g, act, b);
      } else {
        OthersCared(s, g, act, AskOf(o, b), i, b);
      }
    }
  }

  // ----- scheduler steps and runs -----

  lemma LearnCares(m: M.Manager, g: G.Group, i: nat, b: bool, key: GroupKey)
    requires I.Good(m) && Cared(m, g, i, b)
    ensures Cared(M.Apply(m, M.Learn(key)), g, i, b)
  {
    hide I.Good, Cared, Hungry;
    EventCares(m, M.Learn(key), g, g, i, b);
  }

  lemma RegisterCares(s: Sys, key: GroupKey, b: bool)
    requires Wired(s) && AllCared(s, b)
    ensures AllCared(Register(s, key), b)
  {
    var r := Register(s, key);
    ManagerGood(s, b);
    hide Wired, ContractKey, I.Good, M.Apply;
    forall i | 0 <= i < |r.groups| ensures Cared(Mgr(r, b), r.groups[i], i, b) {
      if i < |s.groups| {
        assert Cared(Mgr(s, b), s.groups[i], i, b);
        LearnCares(Mgr(s, b), s.groups[i], i, b, key);
      }
    }
  }

  lemma StepCares(s: Sys, l: Label, b: bool)
    requires Wired(s) && May(s, l) && AllCared(s, b)
    ensures AllCared(Next(s, l), b)
  {
    match l
    case Dispatch =>
      RegisterCares(s, s.sched.txCh[0].key, b);
      hide Wired, ContractKey, Register;
    case OfGroup(g, act) => hide Wired, AllCared, DoGroup; GroupStepCares(s, g, act, b);
    case OfManager(c, act) => hide Wired, AllCared, DoManager; ManagerCares(s, c, act, b);
    case OfProc(pid, act) => hide Wired, AllCared, DoProc; ProcCares(s, pid, act, b);
    case _ => hide Wired, Cared;
  }

  lemma {:induction false} RunCares(s: Sys, ls: seq<Label>, b: bool)
    requires Wired(s) && Possible(s, ls) && AllCared(s, b)
    ensures AllCared(After(s, ls), b)
    decreases |ls|
  {
    hide Wired, May, Next, AllCared;
    if ls != [] {
      StepWired(s, ls[0]);
      StepCares(s, ls[0], b);
      RunCares(Next(s, ls[0]), ls[1..], b);
    }
  }

  /** In every run and for every group and manager: while the group's flag is set, its request is in the manager's
      channel, being handled, on the waiting list, or answered by a response not yet taken; and a ready group with
      queued transactions and no flag has a live process or a response coming. */
  lemma NoLostWakeup(limit: nat, maxOrig: nat, rate: real, uids: seq<nat>, ls: seq<Label>, g: nat, b: bool)
    requires Configured(limit, maxOrig, uids) && Possible(Initial(limit, maxOrig, rate, uids), ls)
    requires g < |After(Initial(limit, maxOrig, rate, uids), ls).groups|
    ensures var s := After(Initial(limit, maxOrig, rate, uids), ls); var m := Mgr(s, b);
            && (G.Ctl(s.groups[g], b).waiting ==>
                  W.Asked(m.inbox, g) || W.Serving(m.job, g) || g in m.desk.waiting || W.Told(m.desk.outbox, g))
            && (Hungry(s.groups[g], b) ==> g in m.t.groups || W.Told(m.desk.outbox, g))
  {
    var s0 := Initial(limit, maxOrig, rate, uids);
    InitialWired(limit, maxOrig, rate, uids);
    RunCares(s0, ls, b);
    hide Wired, Possible;
    assert Cared(Mgr(After(s0, ls), b), After(s0, ls).groups[g], g, b);
  }
}
